/**
 The wire codec across languages: what the Rust side encodes, the Python reader restores, for
 whole lists of frames and however the stream is cut into pieces.
 */
module Codec {
  import opened Wrappers
  import opened Binary
  import opened Actions
  import N = Negotiation

  const WIRE_MAGIC := 0x5754_5245
  const HEADER_WORDS := 14
  const HEADER_BYTES := 56
  const MAX_FRAME_BYTES := 16 * 1024 * 1024

  const FRAME_HELLO := 1
  const FRAME_OBSERVATION := 2
  const FRAME_ACTION := 3
  const FRAME_METADATA := 4
  const FRAME_LIFECYCLE := 5
  const FRAME_RESUME := 6
  const FRAME_SNAPSHOT := 7
  const FRAME_OBSERVATION_EXTENSION := 8

  // ---------------------------------------------------------------- headers

  datatype Header = Header(
    version: Word, kind: Word, frameBytes: Word, step: Long, entity: Long,
    maxNeighbors: Word, neighborCount: Word, samples: Word, channels: Word, floats: Word)

  function WireHeader(h: Header): (ws: seq<Word>)
    ensures |ws| == HEADER_WORDS
  {
    [WIRE_MAGIC, h.version, h.kind, h.frameBytes, Low(h.step), High(h.step), Low(h.entity), High(h.entity),
     h.maxNeighbors, h.neighborCount, h.samples, h.channels, h.floats, 0]
  }

  function EncodeHeader(h: Header): (bs: seq<Byte>)
    ensures |bs| == HEADER_BYTES
  {
    Pack(WireHeader(h))
  }

  datatype ProtocolError =
    | HeaderSize | BadMagic | BadVersion | FrameLength | ReservedWord
    | JsonWithFloats | HelloWithPayload | ActionLength | NeighborCount | ObservationLength
    | WrongKind | InexactTag | FlagMismatch | NotFinite | EndOfStream

  /** `FrameHeader.from_bytes`. */
  function FromBytes(data: seq<Byte>): Result<Header, ProtocolError> {
    if |data| != HEADER_BYTES then Failure(HeaderSize)
    else
      var ws := Unpack(data);
      if ws[0] != WIRE_MAGIC then Failure(BadMagic)
      else if ws[1] != N.PROTOCOL_VERSION then Failure(BadVersion)
      else if !(HEADER_BYTES <= ws[3] <= MAX_FRAME_BYTES) then Failure(FrameLength)
      else if ws[13] != 0 then Failure(ReservedWord)
      else
        Success(Header(ws[1], ws[2], ws[3], Joined(ws[4], ws[5]), Joined(ws[6], ws[7]),
                       ws[8], ws[9], ws[10], ws[11], ws[12]))
  }

  /** Every field of a header survives, with both 64-bit ids whole; only version and length are checked. */
  lemma HeaderRoundTrip(h: Header)
    ensures FromBytes(EncodeHeader(h)) ==
            if h.version != N.PROTOCOL_VERSION then Failure(BadVersion)
            else if !(HEADER_BYTES <= h.frameBytes <= MAX_FRAME_BYTES) then Failure(FrameLength)
            else Success(h)
  {
    PackRoundTrip(WireHeader(h));
    LongRoundTrip(h.step);
    LongRoundTrip(h.entity);
  }

  // ---------------------------------------------------------------- reading frames

  datatype Frame = Frame(header: Header, payload: seq<Byte>)

  predicate IsJson(kind: Word) {
    kind == FRAME_METADATA || kind == FRAME_LIFECYCLE || kind == FRAME_RESUME || kind == FRAME_SNAPSHOT
    || kind == FRAME_OBSERVATION_EXTENSION
  }

  function ExpectedFloats(h: Header): nat {
    N.ObservationFloats(h.samples, h.channels, h.maxNeighbors)
  }

  /** `_validate_frame`, for a payload as long as the header says. */
  function Fault(frame: Frame): Option<ProtocolError> {
    var h := frame.header;
    if IsJson(h.kind) && h.floats != 0 then Some(JsonWithFloats)
    else if h.kind == FRAME_HELLO && frame.payload != [] then Some(HelloWithPayload)
    else if h.kind == FRAME_ACTION && (h.floats != N.ACTION_STRIDE || |frame.payload| != 4 * N.ACTION_STRIDE) then
      Some(ActionLength)
    else if h.kind == FRAME_OBSERVATION then
      if h.neighborCount > h.maxNeighbors then Some(NeighborCount)
      else if h.floats != ExpectedFloats(h) || |frame.payload| != 4 * ExpectedFloats(h) then Some(ObservationLength)
      else None
    else None
  }

  /** A frame read from the front of a stream, and what follows it. */
  datatype Reading = Reading(frame: Frame, rest: seq<Byte>)

  function ReadFrame(stream: seq<Byte>): (r: Result<Reading, ProtocolError>)
    ensures r.Success? ==> |r.value.rest| < |stream|
  {
    if |stream| < HEADER_BYTES then Failure(EndOfStream)
    else
      match FromBytes(stream[..HEADER_BYTES])
      case Failure(error) => Failure(error)
      case Success(h) =>
        if |stream| < h.frameBytes then Failure(EndOfStream)
        else
          var frame := Frame(h, stream[HEADER_BYTES..h.frameBytes]);
          match Fault(frame)
          case Some(error) => Failure(error)
          case None => Success(Reading(frame, stream[h.frameBytes..]))
  }

  /** All frames of a stream, to its end. */
  function ReadAll(stream: seq<Byte>): Result<seq<Frame>, ProtocolError>
    decreases |stream|
  {
    if stream == [] then Success([])
    else
      match ReadFrame(stream)
      case Failure(error) => Failure(error)
      case Success(Reading(frame, rest)) =>
        match ReadAll(rest)
        case Failure(error) => Failure(error)
        case Success(frames) => Success([frame] + frames)
  }

  /** A frame as it is sent: a header that tells its size, and a payload. */
  function Sealed(h: Header, payload: seq<Byte>): seq<Byte> {
    EncodeHeader(h) + payload
  }

  lemma ReadSealed(h: Header, payload: seq<Byte>, rest: seq<Byte>)
    requires h.version == N.PROTOCOL_VERSION && h.frameBytes == HEADER_BYTES + |payload| <= MAX_FRAME_BYTES
    ensures ReadFrame(Sealed(h, payload) + rest) ==
            match Fault(Frame(h, payload))
            case Some(error) => Failure(error)
            case None => Success(Reading(Frame(h, payload), rest))
  {
    var stream := Sealed(h, payload) + rest;
    assert stream[..HEADER_BYTES] == EncodeHeader(h);
    HeaderRoundTrip(h);
    assert stream[HEADER_BYTES..h.frameBytes] == payload && stream[h.frameBytes..] == rest;
  }

  // ---------------------------------------------------------------- observations

  datatype Pair = Pair(x: Word, y: Word)

  /** Floats other than tag chunks and flags are opaque words. */
  datatype NeighborView = NeighborView(
    position: Pair, velocity: Pair, mass: Word, structure: Word, energy: Word, tags: Long,
    conductivity: Word, frequency: Word, phase: Word, valid: bool)

  /** The binary32 pattern of 1.0. */
  const ONE: Word := 0x3F80_0000

  function NeighborWords(n: NeighborView): (ws: seq<Word>)
    ensures |ws| == N.NEIGHBOR_STRIDE
  {
    [n.position.x, n.position.y, n.velocity.x, n.velocity.y, n.mass, n.structure, n.energy,
     FloatOf(Chunk(n.tags, 0)), FloatOf(Chunk(n.tags, 1)), FloatOf(Chunk(n.tags, 2)), FloatOf(Chunk(n.tags, 3)),
     n.conductivity, n.frequency, n.phase, if n.valid then ONE else 0]
  }

  /** `_exact_u16`. */
  function ExactU16(w: Word): (r: Option<nat>)
    ensures r.Some? ==> r.value < 0x1_0000
  {
    var value := ValueOf(w);
    if value.Finite? && value.value.Floor as real == value.value && 0 <= value.value.Floor < 0x1_0000
    then Some(value.value.Floor) else None
  }

  predicate AtLeastHalf(w: Word) {
    var value := ValueOf(w);
    value.PositiveInfinity? || (value.Finite? && value.value >= 0.5)
  }

  function DecodeNeighbor(raw: seq<Word>): Option<NeighborView>
    requires |raw| == N.NEIGHBOR_STRIDE
  {
    var a, b, c, d := ExactU16(raw[7]), ExactU16(raw[8]), ExactU16(raw[9]), ExactU16(raw[10]);
    if a.None? || b.None? || c.None? || d.None? then None
    else
      Some(NeighborView(Pair(raw[0], raw[1]), Pair(raw[2], raw[3]), raw[4], raw[5], raw[6],
                        Mask([a.value, b.value, c.value, d.value]), raw[11], raw[12], raw[13], AtLeastHalf(raw[14])))
  }

  lemma TagExact(n: nat)
    requires n < 0x1_0000
    ensures ExactU16(FloatOf(n)) == Some(n)
  {
    FloatExact(n);
  }

  lemma FlagExact()
    ensures AtLeastHalf(ONE) && !AtLeastHalf(0)
  {
    NormalValue(127, 0);
    Power23();
    assert Scaled(0, 1) == 0.0;
  }

  /** A neighbor survives, with all 64 tag bits and its flag. */
  lemma NeighborRoundTrip(n: NeighborView)
    ensures DecodeNeighbor(NeighborWords(n)) == Some(n)
  {
    TagExact(Chunk(n.tags, 0));
    TagExact(Chunk(n.tags, 1));
    TagExact(Chunk(n.tags, 2));
    TagExact(Chunk(n.tags, 3));
    FlagExact();
    MaskRoundTrip(n.tags);
  }

  datatype ObservationTensor = ObservationTensor(
    step: Long, entity: Long, maxNeighbors: nat, samples: nat, channels: nat,
    self: seq<Word>, field: seq<Word>, neighbors: seq<NeighborView>)

  /** The vectors have the lengths of the configuration, whose dimensions fit a header word. */
  predicate Shaped(o: ObservationTensor) {
    && o.maxNeighbors < U32 && o.samples < U32 && o.channels < U32
    && |o.self| == N.SELF_STRIDE && |o.field| == N.FIELD_COUNT * (o.samples * o.channels)
    && |o.neighbors| == o.maxNeighbors
  }

  function Flatten(ns: seq<NeighborView>): (ws: seq<Word>)
    ensures |ws| == N.NEIGHBOR_STRIDE * |ns|
  {
    if ns == [] then [] else NeighborWords(ns[0]) + Flatten(ns[1..])
  }

  /** `to_f32_vec`. */
  function TensorWords(o: ObservationTensor): seq<Word> {
    o.self + o.field + Flatten(o.neighbors)
  }

  function CountValid(ns: seq<NeighborView>): (n: nat)
    ensures n <= |ns|
  {
    if ns == [] then 0 else CountValid(ns[..|ns| - 1]) + if ns[|ns| - 1].valid then 1 else 0
  }

  function ObservationHeader(o: ObservationTensor): Header
    requires Shaped(o)
  {
    var floats := |TensorWords(o)|;
    Header(N.PROTOCOL_VERSION, FRAME_OBSERVATION, (HEADER_BYTES + 4 * floats) % U32, o.step, o.entity,
           o.maxNeighbors, CountValid(o.neighbors), o.samples, o.channels, floats % U32)
  }

  /** `encode_observation`. Lengths are cast to 32 bits; nothing checks the limit. */
  function EncodeObservation(o: ObservationTensor): (bs: seq<Byte>)
    requires Shaped(o)
    ensures |bs| == HEADER_BYTES + 4 * |TensorWords(o)|
  {
    Sealed(ObservationHeader(o), Pack(TensorWords(o)))
  }

  datatype Observation = Observation(step: Long, entity: Long, self: seq<Word>, fields: seq<Word>,
    neighbors: seq<NeighborView>)

  /** The neighbor blocks at the front of `values`. */
  function DecodeNeighbors(values: seq<Word>, n: nat): Option<seq<NeighborView>>
    requires N.NEIGHBOR_STRIDE * n <= |values|
  {
    if n == 0 then Some([])
    else
      var first := DecodeNeighbor(values[..N.NEIGHBOR_STRIDE]);
      var others := DecodeNeighbors(values[N.NEIGHBOR_STRIDE..], n - 1);
      if first.None? || others.None? then None else Some([first.value] + others.value)
  }

  /** Where the fields of a tensor end. */
  function FieldEnd(samples: nat, channels: nat): nat {
    N.SELF_STRIDE + N.FIELD_COUNT * (samples * channels)
  }

  lemma FieldsFit(samples: nat, channels: nat, neighbors: nat)
    ensures N.ObservationFloats(samples, channels, neighbors) ==
            FieldEnd(samples, channels) + N.NEIGHBOR_STRIDE * neighbors
    ensures FieldEnd(samples, channels) >= N.SELF_STRIDE
  {
  }

  /** An observation frame that is let through has all its floats. */
  lemma PayloadFits(frame: Frame)
    requires Fault(frame).None? && frame.header.kind == FRAME_OBSERVATION
    ensures |frame.payload| == 4 * ExpectedFloats(frame.header) && |frame.payload| % 4 == 0
  {
    WholeWords(ExpectedFloats(frame.header));
  }

  lemma WholeWords(n: nat)
    ensures 4 * n % 4 == 0
  {
  }

  /** `decode_observation`, of a frame that `read_frame` has let through. */
  function DecodeObservation(frame: Frame): Result<Observation, ProtocolError>
    requires Fault(frame).None?
  {
    var h := frame.header;
    if h.kind != FRAME_OBSERVATION then Failure(WrongKind)
    else
      PayloadFits(frame);
      var values := Unpack(frame.payload);
      FieldsFit(h.samples, h.channels, h.maxNeighbors);
      var fieldEnd := FieldEnd(h.samples, h.channels);
      var neighbors := DecodeNeighbors(values[fieldEnd..], h.maxNeighbors);
      if neighbors.None? then Failure(InexactTag)
      else if CountValid(neighbors.value) != h.neighborCount then Failure(FlagMismatch)
      else Success(Observation(h.step, h.entity, values[..N.SELF_STRIDE], values[N.SELF_STRIDE..fieldEnd],
          neighbors.value))
  }

  lemma DecodeNext(block: seq<Word>, rest: seq<Word>, k: nat, n: NeighborView, others: seq<NeighborView>)
    requires |block| == N.NEIGHBOR_STRIDE && DecodeNeighbor(block) == Some(n)
    requires N.NEIGHBOR_STRIDE * k <= |rest| && DecodeNeighbors(rest, k) == Some(others)
    ensures DecodeNeighbors(block + rest, k + 1) == Some([n] + others)
  {
    var values := block + rest;
    assert values[..N.NEIGHBOR_STRIDE] == block && values[N.NEIGHBOR_STRIDE..] == rest;
  }

  lemma {:induction false} NeighborsRoundTrip(ns: seq<NeighborView>)
    ensures DecodeNeighbors(Flatten(ns), |ns|) == Some(ns)
  {
    if ns != [] {
      NeighborRoundTrip(ns[0]);
      NeighborsRoundTrip(ns[1..]);
      DecodeNext(NeighborWords(ns[0]), Flatten(ns[1..]), |ns| - 1, ns[0], ns[1..]);
      assert [ns[0]] + ns[1..] == ns;
    }
  }

  function ViewOf(o: ObservationTensor): Observation {
    Observation(o.step, o.entity, o.self, o.field, o.neighbors)
  }

  lemma TensorSize(o: ObservationTensor)
    requires Shaped(o)
    ensures |TensorWords(o)| == N.ObservationFloats(o.samples, o.channels, o.maxNeighbors)
  {
  }

  lemma ReadTensor(h: Header, ws: seq<Word>, rest: seq<Byte>)
    requires h.version == N.PROTOCOL_VERSION && h.kind == FRAME_OBSERVATION
    requires h.frameBytes == HEADER_BYTES + 4 * |ws| <= MAX_FRAME_BYTES
    requires h.neighborCount <= h.maxNeighbors && h.floats == |ws| == ExpectedFloats(h)
    ensures Fault(Frame(h, Pack(ws))).None?
    ensures ReadFrame(Sealed(h, Pack(ws)) + rest) == Success(Reading(Frame(h, Pack(ws)), rest))
  {
    ReadSealed(h, Pack(ws), rest);
  }

  /** Within the limit the sizes in the header are exact. */
  lemma HeaderExact(o: ObservationTensor)
    requires Shaped(o) && |EncodeObservation(o)| <= MAX_FRAME_BYTES
    ensures var h, ws := ObservationHeader(o), TensorWords(o);
            && h.frameBytes == HEADER_BYTES + 4 * |ws| <= MAX_FRAME_BYTES
            && h.neighborCount <= h.maxNeighbors && h.floats == |ws| == ExpectedFloats(h)
  {
    TensorSize(o);
    Unwrapped(|TensorWords(o)|);
    Unwrapped(HEADER_BYTES + 4 * |TensorWords(o)|);
  }

  lemma Unwrapped(n: nat)
    ensures n < U32 ==> n % U32 == n
  {
  }

  /** Within the size limit, the frame is read back whole and without fault. */
  lemma ObservationRead(o: ObservationTensor, rest: seq<Byte>)
    requires Shaped(o) && |EncodeObservation(o)| <= MAX_FRAME_BYTES
    ensures var frame := Frame(ObservationHeader(o), Pack(TensorWords(o)));
            Fault(frame).None? && ReadFrame(EncodeObservation(o) + rest) == Success(Reading(frame, rest))
  {
    HeaderExact(o);
    ReadTensor(ObservationHeader(o), TensorWords(o), rest);
  }

  /** And decoded, it is the observation that was encoded. */
  lemma ObservationDecoded(o: ObservationTensor)
    requires Shaped(o) && Fault(Frame(ObservationHeader(o), Pack(TensorWords(o)))).None?
    ensures DecodeObservation(Frame(ObservationHeader(o), Pack(TensorWords(o)))) == Success(ViewOf(o))
  {
    var values := TensorWords(o);
    PackRoundTrip(values);
    var fieldEnd := N.SELF_STRIDE + N.FIELD_COUNT * (o.samples * o.channels);
    assert values[fieldEnd..] == Flatten(o.neighbors);
    assert values[..N.SELF_STRIDE] == o.self && values[N.SELF_STRIDE..fieldEnd] == o.field;
    NeighborsRoundTrip(o.neighbors);
  }

  /** Beyond the limit the reader finds fault, even where the 32-bit size has wrapped to an acceptable one. */
  lemma ObservationTooLong(o: ObservationTensor, rest: seq<Byte>)
    requires Shaped(o) && |EncodeObservation(o)| > MAX_FRAME_BYTES
    ensures ReadFrame(EncodeObservation(o) + rest).Failure?
  {
    var h, payload := ObservationHeader(o), Pack(TensorWords(o));
    var stream := EncodeObservation(o) + rest;
    assert stream[..HEADER_BYTES] == EncodeHeader(h);
    HeaderRoundTrip(h);
    if HEADER_BYTES <= h.frameBytes <= MAX_FRAME_BYTES {
      assert |TensorWords(o)| == ExpectedFloats(h);
      assert |stream[HEADER_BYTES..h.frameBytes]| < 4 * ExpectedFloats(h);
    }
  }

  /**
   The observation round trip across languages: what Rust encodes, Python reads and decodes to
   the same step, entity, floats, tags and flags, and leaves the rest of the stream alone,
   exactly if the frame is within the size limit.
   */
  lemma ObservationRoundTrip(o: ObservationTensor, rest: seq<Byte>)
    requires Shaped(o)
    ensures |EncodeObservation(o)| <= MAX_FRAME_BYTES <==>
            var r := ReadFrame(EncodeObservation(o) + rest);
            && r.Success? && r.value.rest == rest
            && Fault(r.value.frame).None? && DecodeObservation(r.value.frame) == Success(ViewOf(o))
  {
    if |EncodeObservation(o)| <= MAX_FRAME_BYTES {
      ObservationRead(o, rest);
      ObservationDecoded(o);
    } else {
      ObservationTooLong(o, rest);
    }
  }

  // ---------------------------------------------------------------- whole streams

  /** What the server sends: observations, and JSON frames whose text is opaque here. */
  datatype Message =
    | ObservationMessage(observation: ObservationTensor)
    | JsonMessage(kind: Word, step: Long, entity: Long, text: seq<Byte>)

  predicate Sendable(m: Message) {
    match m
    case ObservationMessage(o) => Shaped(o) && |EncodeObservation(o)| <= MAX_FRAME_BYTES
    case JsonMessage(kind, _, _, text) => IsJson(kind) && HEADER_BYTES + |text| <= MAX_FRAME_BYTES
  }

  /** The frame the reader should see. */
  function FrameOf(m: Message): Frame
    requires Sendable(m)
  {
    match m
    case ObservationMessage(o) => Frame(ObservationHeader(o), Pack(TensorWords(o)))
    case JsonMessage(kind, step, entity, text) =>
      Frame(Header(N.PROTOCOL_VERSION, kind, HEADER_BYTES + |text|, step, entity, 0, 0, 0, 0, 0), text)
  }

  /** `encode_observation` or `write_json_frame`. */
  function Encode(m: Message): seq<Byte>
    requires Sendable(m)
  {
    if m.ObservationMessage? then EncodeObservation(m.observation) else Sealed(FrameOf(m).header, m.text)
  }

  function EncodeAll(ms: seq<Message>): seq<Byte>
    requires forall m | m in ms :: Sendable(m)
  {
    if ms == [] then [] else Encode(ms[0]) + EncodeAll(ms[1..])
  }

  function FramesOf(ms: seq<Message>): seq<Frame>
    requires forall m | m in ms :: Sendable(m)
  {
    if ms == [] then [] else [FrameOf(ms[0])] + FramesOf(ms[1..])
  }

  /** A frame means a message if it decodes to what the message says. */
  predicate Means(frame: Frame, m: Message) {
    && Fault(frame).None?
    && match m
       case ObservationMessage(o) => DecodeObservation(frame) == Success(ViewOf(o))
       case JsonMessage(kind, step, entity, text) =>
         frame.header.kind == kind && frame.header.step == step && frame.header.entity == entity
             && frame.payload == text
  }

  lemma MessageRead(m: Message, rest: seq<Byte>)
    requires Sendable(m)
    ensures ReadFrame(Encode(m) + rest) == Success(Reading(FrameOf(m), rest)) && Means(FrameOf(m), m)
    ensures Encode(m) != []
  {
    if m.ObservationMessage? {
      ObservationRead(m.observation, rest);
      ObservationDecoded(m.observation);
    } else {
      ReadSealed(FrameOf(m).header, m.text, rest);
    }
  }

  lemma ReadNext(bytes: seq<Byte>, rest: seq<Byte>, frame: Frame, frames: seq<Frame>)
    requires bytes != [] && ReadFrame(bytes + rest) == Success(Reading(frame, rest)) && ReadAll(rest) == Success(frames)
    ensures ReadAll(bytes + rest) == Success([frame] + frames)
  {
  }

  lemma {:induction false} AllMean(ms: seq<Message>, i: nat)
    requires (forall m | m in ms :: Sendable(m)) && i < |ms|
    ensures |FramesOf(ms)| == |ms| && Means(FramesOf(ms)[i], ms[i])
  {
    assert ms[0] in ms && forall m | m in ms[1..] :: m in ms;
    MessageRead(ms[0], []);
    if i > 0 { AllMean(ms[1..], i - 1); } else if |ms| > 1 { AllMean(ms[1..], 0); }
  }

  /** Any list of messages within the limit is read back as the same list, each with its meaning. */
  lemma {:induction false} StreamRoundTrip(ms: seq<Message>)
    requires forall m | m in ms :: Sendable(m)
    ensures ReadAll(EncodeAll(ms)) == Success(FramesOf(ms)) && |FramesOf(ms)| == |ms|
    ensures forall i | 0 <= i < |ms| :: Means(FramesOf(ms)[i], ms[i])
  {
    if ms != [] {
      assert ms[0] in ms && forall m | m in ms[1..] :: m in ms;
      StreamRoundTrip(ms[1..]);
      MessageRead(ms[0], EncodeAll(ms[1..]));
      ReadNext(Encode(ms[0]), EncodeAll(ms[1..]), FrameOf(ms[0]), FramesOf(ms[1..]));
      forall i | 0 <= i < |ms| ensures Means(FramesOf(ms)[i], ms[i]) { AllMean(ms, i); }
    }
  }

  // ---------------------------------------------------------------- actions

  /** `encode_action`: the client refuses values that are not finite. */
  function EncodeAction(step: Long, entity: Long, values: seq<Word>): Result<seq<Byte>, ProtocolError>
    requires |values| == N.ACTION_STRIDE
  {
    if exists v :: v in values && !ValueOf(v).Finite? then Failure(NotFinite)
    else
      Success(Sealed(Header(N.PROTOCOL_VERSION, FRAME_ACTION, HEADER_BYTES + 4 * N.ACTION_STRIDE, step, entity,
                            0, 0, 0, 0, N.ACTION_STRIDE),
                     Pack(values)))
  }

  /** The components in the order of the wire; `length` is the length of the force. */
  function TensorOf(values: seq<Word>, length: real): ActionTensor
    requires |values| == N.ACTION_STRIDE
  {
    ActionTensor(Force(ValueOf(values[0]), ValueOf(values[1]), length), ValueOf(values[2]), ValueOf(values[3]),
                 ValueOf(values[4]), ValueOf(values[5]), ValueOf(values[6]))
  }

  datatype Parsed = Parsed(step: Long, entity: Long, values: seq<Word>)

  /** The checks of `decode_action`, and the words it reads. */
  function ParseAction(bytes: seq<Byte>): (parsed: Option<Parsed>)
    ensures parsed.Some? ==> |parsed.value.values| == N.ACTION_STRIDE
  {
    if |bytes| < HEADER_BYTES then None
    else
      var h := Unpack(bytes[..HEADER_BYTES]);
      if h[0] != WIRE_MAGIC || h[1] != N.PROTOCOL_VERSION || h[2] != FRAME_ACTION || h[3] != |bytes|
         || h[12] != N.ACTION_STRIDE || |bytes| != HEADER_BYTES + 4 * N.ACTION_STRIDE
      then None
      else Some(Parsed(Joined(h[4], h[5]), Joined(h[6], h[7]), Unpack(bytes[HEADER_BYTES..])))
  }

  datatype DecodedAction = DecodedAction(step: Long, entity: Long, action: ActionTensor)

  /** `decode_action`: what is read is sanitized before anyone sees it. */
  function DecodeAction(bytes: seq<Byte>, length: real): Option<DecodedAction> {
    match ParseAction(bytes)
    case None => None
    case Some(p) => Some(DecodedAction(p.step, p.entity, Sanitize(TensorOf(p.values, length))))
  }

  /** The server's `read_frame`: it checks magic and length only. */
  function ServerRead(stream: seq<Byte>): Option<(seq<Byte>, seq<Byte>)> {
    if |stream| < HEADER_BYTES then None
    else
      var h := Unpack(stream[..HEADER_BYTES]);
      if h[0] != WIRE_MAGIC || !(HEADER_BYTES <= h[3] <= MAX_FRAME_BYTES) || |stream| < h[3] then None
      else Some((stream[..h[3]], stream[h[3]..]))
  }

  lemma ActionParsed(step: Long, entity: Long, values: seq<Word>, rest: seq<Byte>)
    requires |values| == N.ACTION_STRIDE && EncodeAction(step, entity, values).Success?
    ensures var bytes := EncodeAction(step, entity, values).value;
            && ServerRead(bytes + rest) == Some((bytes, rest))
            && ParseAction(bytes) == Some(Parsed(step, entity, values))
  {
    var h := Header(N.PROTOCOL_VERSION, FRAME_ACTION, HEADER_BYTES + 4 * N.ACTION_STRIDE, step, entity,
                    0, 0, 0, 0, N.ACTION_STRIDE);
    SealedParts(h, Pack(values), rest);
    PackRoundTrip(WireHeader(h));
    PackRoundTrip(values);
    LongRoundTrip(step);
    LongRoundTrip(entity);
  }

  /** The client refuses exactly what is not finite. */
  lemma EncodesFinite(step: Long, entity: Long, values: seq<Word>, length: real)
    requires |values| == N.ACTION_STRIDE
    ensures EncodeAction(step, entity, values).Success? <==> AllFinite(TensorOf(values, length))
  {
    assert forall i | 0 <= i < |values| :: values[i] in values;
  }

  /**
   An action end to end: the client encodes exactly the finite ones; the server reads the same
   step and entity, and the action sanitized, which is the client's own exactly if that is sane.
   */
  lemma ActionRoundTrip(step: Long, entity: Long, values: seq<Word>, length: real, rest: seq<Byte>)
    requires |values| == N.ACTION_STRIDE && Measured(TensorOf(values, length).force)
    ensures var r, sent := EncodeAction(step, entity, values), TensorOf(values, length);
            && (r.Success? <==> AllFinite(sent))
            && (r.Success? ==>
                  && ServerRead(r.value + rest) == Some((r.value, rest))
                  && DecodeAction(r.value, length) == Some(DecodedAction(step, entity, Sanitize(sent)))
                  && Sane(Sanitize(sent)) && (Sanitize(sent) == sent <==> Sane(sent)))
  {
    EncodesFinite(step, entity, values, length);
    SanitizeIsExact(TensorOf(values, length));
    if EncodeAction(step, entity, values).Success? { ActionParsed(step, entity, values, rest); }
  }

  lemma SealedParts(h: Header, payload: seq<Byte>, rest: seq<Byte>)
    ensures var bytes := Sealed(h, payload);
            && bytes[..HEADER_BYTES] == EncodeHeader(h) && bytes[HEADER_BYTES..] == payload
            && (bytes + rest)[..HEADER_BYTES] == EncodeHeader(h)
            && (bytes + rest)[..|bytes|] == bytes && (bytes + rest)[|bytes|..] == rest
  {
  }

  // ---------------------------------------------------------------- sockets

  function Concat(pieces: seq<seq<Byte>>): seq<Byte> {
    if pieces == [] then [] else pieces[0] + Concat(pieces[1..])
  }

  /** A stream that delivers its bytes in pieces of any size, and then ends. */
  class Socket {
    var pieces: seq<seq<Byte>>

    constructor (segments: seq<seq<Byte>>)
      requires forall p | p in segments :: p != []
      ensures Valid() && Pending() == Concat(segments)
    {
      pieces := segments;
    }

    ghost predicate Valid()
      reads this
    {
      forall p | p in pieces :: p != []
    }

    ghost function Pending(): seq<Byte>
      reads this
    {
      Concat(pieces)
    }

    /** At most `size` bytes of the next piece; nothing once the stream has ended. */
    method Recv(size: nat) returns (chunk: seq<Byte>)
      requires Valid() && size > 0
      modifies this
      ensures Valid() && |chunk| <= size && old(Pending()) == chunk + Pending()
      ensures chunk == [] <==> old(Pending()) == []
    {
      if pieces == [] { return []; }
      var piece := pieces[0];
      assert piece in pieces;
      var others := pieces[1..];
      assert forall p | p in others :: p in pieces;
      if |piece| <= size {
        chunk := piece;
        pieces := others;
      } else {
        chunk := piece[..size];
        pieces := [piece[size..]] + others;
        assert pieces[1..] == others && piece == piece[..size] + piece[size..];
      }
    }

    /** `_recv_exact`: however the bytes arrive, exactly the next `size` of them. */
    method RecvExact(size: nat) returns (data: Option<seq<Byte>>)
      requires Valid()
      modifies this
      ensures Valid()
      ensures data.Some? <==> size <= |old(Pending())|
      ensures data.Some? ==> data.value == old(Pending())[..size] && Pending() == old(Pending())[size..]
    {
      var chunks: seq<Byte> := [];
      ghost var all := Pending();
      while |chunks| < size
        invariant Valid() && all == chunks + Pending() && |chunks| <= size
        decreases size - |chunks|
      {
        var chunk := Recv(size - |chunks|);
        if chunk == [] { return None; }
        chunks := chunks + chunk;
      }
      data := Some(chunks);
    }

    /** `read_frame`. */
    method ReceiveFrame() returns (result: Result<Frame, ProtocolError>)
      requires Valid()
      modifies this
      ensures Valid()
      ensures match ReadFrame(old(Pending()))
              case Success(Reading(frame, rest)) => result == Success(frame) && Pending() == rest
              case Failure(error) => result == Failure(error)
    {
      ghost var stream := Pending();
      var head := RecvExact(HEADER_BYTES);
      if head.None? { return Failure(EndOfStream); }
      var parsed := FromBytes(head.value);
      if parsed.Failure? { return Failure(parsed.error); }
      var payload := RecvExact(parsed.value.frameBytes - HEADER_BYTES);
      if payload.None? { return Failure(EndOfStream); }
      var frame := Frame(parsed.value, payload.value);
      assert payload.value == stream[HEADER_BYTES..parsed.value.frameBytes];
      var fault := Fault(frame);
      result := if fault.Some? then Failure(fault.value) else Success(frame);
    }

    /**
     The reader's loop: however the server's messages are cut into pieces on the way, it
     receives exactly the frames that were sent, in order.
     */
    method ReceiveAll(ghost sent: seq<Message>) returns (frames: seq<Frame>)
      requires Valid() && (forall m | m in sent :: Sendable(m)) && Pending() == EncodeAll(sent)
      modifies this
      ensures |frames| == |sent| && forall i | 0 <= i < |sent| :: Means(frames[i], sent[i])
      ensures frames == FramesOf(sent) && Pending() == []
    {
      frames := [];
      ghost var left := sent;
      while pieces != []
        invariant Valid() && (forall m | m in left :: Sendable(m))
        invariant Pending() == EncodeAll(left) && frames + FramesOf(left) == FramesOf(sent)
        decreases |left|
      {
        PiecesPending();
        NextMessage(left);
        var result := ReceiveFrame();
        assert result == Success(FrameOf(left[0]));
        assert (frames + [result.value]) + FramesOf(left[1..]) == frames + ([result.value] + FramesOf(left[1..]));
        frames := frames + [result.value];
        left := left[1..];
      }
      if left != [] { NextMessage(left); }
      assert frames == FramesOf(sent);
      StreamRoundTrip(sent);
    }

    lemma PiecesPending()
      requires Valid() && pieces != []
      ensures Pending() != []
    {
      assert pieces[0] in pieces;
    }
  }

  lemma NextMessage(ms: seq<Message>)
    requires forall m | m in ms :: Sendable(m)
    requires ms != [] || EncodeAll(ms) != []
    ensures ms != [] && (forall m | m in ms[1..] :: Sendable(m)) && EncodeAll(ms) != []
    ensures ReadFrame(EncodeAll(ms)) == Success(Reading(FrameOf(ms[0]), EncodeAll(ms[1..])))
    ensures FramesOf(ms) == [FrameOf(ms[0])] + FramesOf(ms[1..])
  {
    assert ms[0] in ms && forall m | m in ms[1..] :: m in ms;
    MessageRead(ms[0], EncodeAll(ms[1..]));
  }
}
