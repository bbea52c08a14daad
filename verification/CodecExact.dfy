/**
 What the readers of the wire accept, exactly: which bytes are a header, a frame, a stream, an
 action, and which frames are an observation. The round trips say that everything written is
 read; this says that nothing else is.
 */
module CodecExact {
  import opened Wrappers
  import opened Binary
  import opened Actions
  import opened Codec

  // ---------------------------------------------------------------- headers and frames

  /** The bytes that are a header are those the encoder writes for it, of version 4 and a length within bounds. */
  lemma HeaderExactly(data: seq<Byte>, h: Header)
    ensures FromBytes(data) == Success(h) <==>
            data == EncodeHeader(h) && h.version == 4 && 56 <= h.frameBytes <= 16_777_216
  {
    if FromBytes(data) == Success(h) {
      var ws := Unpack(data);
      JoinedRoundTrip(ws[4], ws[5]);
      JoinedRoundTrip(ws[6], ws[7]);
      assert ws == WireHeader(h);
      UnpackRoundTrip(data);
    }
    if data == EncodeHeader(h) { HeaderRoundTrip(h); }
  }

  /** A frame of the right size, and nothing wrong with it. */
  predicate Proper(frame: Frame) {
    frame.header.version == 4 && frame.header.frameBytes == 56 + |frame.payload| <= 16_777_216 && Fault(frame).None?
  }

  /** What is read off a stream is what stands at its front, and the rest is left alone. */
  lemma FrameExactly(stream: seq<Byte>, frame: Frame, rest: seq<Byte>)
    ensures ReadFrame(stream) == Success(Reading(frame, rest)) <==>
            stream == Sealed(frame.header, frame.payload) + rest && Proper(frame)
  {
    var h := frame.header;
    if ReadFrame(stream) == Success(Reading(frame, rest)) {
      HeaderExactly(stream[..HEADER_BYTES], h);
      assert stream == stream[..HEADER_BYTES] + stream[HEADER_BYTES..h.frameBytes] + stream[h.frameBytes..];
    }
    if stream == Sealed(h, frame.payload) + rest && Proper(frame) { ReadSealed(h, frame.payload, rest); }
  }

  function SealedAll(frames: seq<Frame>): seq<Byte> {
    if frames == [] then [] else Sealed(frames[0].header, frames[0].payload) + SealedAll(frames[1..])
  }

  lemma {:induction false} StreamRead(stream: seq<Byte>, frames: seq<Frame>)
    requires ReadAll(stream) == Success(frames)
    ensures stream == SealedAll(frames) && forall f | f in frames :: Proper(f)
    decreases |stream|
  {
    if stream != [] {
      FirstRead(stream);
      var r := ReadFrame(stream).value;
      StreamRead(r.rest, ReadAll(r.rest).value);
      FrameExactly(stream, r.frame, r.rest);
      assert frames[0] == r.frame && frames[1..] == ReadAll(r.rest).value;
    }
  }

  lemma {:induction false} StreamWritten(frames: seq<Frame>)
    requires forall f | f in frames :: Proper(f)
    ensures ReadAll(SealedAll(frames)) == Success(frames)
  {
    if frames != [] {
      var first, others := frames[0], frames[1..];
      assert first in frames && forall f | f in others :: f in frames;
      StreamWritten(others);
      OneMoreRead(first, others);
      assert frames == [first] + others;
    }
  }

  lemma OneMoreRead(first: Frame, others: seq<Frame>)
    requires Proper(first) && ReadAll(SealedAll(others)) == Success(others)
    ensures ReadAll(SealedAll([first] + others)) == Success([first] + others)
  {
    var bytes := Sealed(first.header, first.payload);
    assert ([first] + others)[0] == first && ([first] + others)[1..] == others;
    FrameExactly(bytes + SealedAll(others), first, SealedAll(others));
    ReadNext(bytes, SealedAll(others), first, others);
  }

  /** A stream is read to its end as these frames if and only if it is these frames, one after another. */
  lemma StreamExactly(stream: seq<Byte>, frames: seq<Frame>)
    ensures ReadAll(stream) == Success(frames) <==>
            stream == SealedAll(frames) && forall f | f in frames :: Proper(f)
  {
    if ReadAll(stream) == Success(frames) { StreamRead(stream, frames); }
    if forall f | f in frames :: Proper(f) { StreamWritten(frames); }
  }

  /** A stream that is not empty is read frame by frame. */
  lemma FirstRead(stream: seq<Byte>)
    requires stream != [] && ReadAll(stream).Success?
    ensures ReadFrame(stream).Success?
    ensures var r := ReadFrame(stream).value;
            ReadAll(r.rest).Success? && ReadAll(stream) == Success([r.frame] + ReadAll(r.rest).value)
  {
  }

  function Floats(h: Header): nat {
    8 + 3 * (h.samples * h.channels) + 15 * h.maxNeighbors
  }

  /**
   What a frame must be like, by its kind: JSON frames (4 to 8) announce no floats, a hello (1) is
   empty, an action (3) has seven floats, and an observation (2) as many as its dimensions ask
   for, and no more neighbors than slots. Other kinds are let through.
   */
  lemma FaultlessExactly(frame: Frame)
    ensures var h, bytes := frame.header, |frame.payload|;
            Fault(frame).None? <==>
              && (4 <= h.kind <= 8 ==> h.floats == 0)
              && (h.kind == 1 ==> bytes == 0)
              && (h.kind == 3 ==> h.floats == 7 && bytes == 28)
              && (h.kind == 2 ==>
                    && h.neighborCount <= h.maxNeighbors
                    && h.floats == Floats(h) && bytes == 4 * h.floats)
  {
  }

  // ---------------------------------------------------------------- observations

  /** The flags of a list of neighbors. */
  function Flags(ns: seq<NeighborView>): set<int> {
    set i | 0 <= i < |ns| && ns[i].valid
  }

  lemma {:induction false} CountIsFlags(ns: seq<NeighborView>)
    ensures CountValid(ns) == |Flags(ns)|
  {
    if ns != [] {
      var n := |ns| - 1;
      var front := ns[..n];
      CountIsFlags(front);
      assert Flags(ns) == Flags(front) + if ns[n].valid then {n} else {};
    }
  }

  /** The header of an observation counts the slots that hold a neighbor, and not the ghosts. */
  lemma HeaderCounts(o: ObservationTensor)
    requires Shaped(o)
    ensures ObservationHeader(o).neighborCount == |set i | 0 <= i < |o.neighbors| && o.neighbors[i].valid|
  {
    CountIsFlags(o.neighbors);
  }

  /** A float is a 16-bit number exactly if it denotes it. */
  lemma ExactExactly(w: Word, n: nat)
    ensures ExactU16(w) == Some(n) <==> n < 0x1_0000 && ValueOf(w) == Finite(n as real)
  {
  }

  /** The j-th float of the i-th slot. */
  function SlotWord(values: seq<Word>, at: nat, i: nat, j: nat): Word
    requires j < 15 && at + 15 * (i + 1) <= |values|
  {
    values[at + 15 * i + j]
  }

  /** All four tag chunks of the slot are 16-bit numbers. */
  predicate TagsExact(values: seq<Word>, at: nat, i: nat)
    requires at + 15 * (i + 1) <= |values|
  {
    forall j | 7 <= j < 11 :: ExactU16(SlotWord(values, at, i, j)).Some?
  }

  function SlotBlock(values: seq<Word>, at: nat, i: nat): (block: seq<Word>)
    requires at + 15 * (i + 1) <= |values|
    ensures |block| == 15 && forall j | 0 <= j < 15 :: block[j] == SlotWord(values, at, i, j)
  {
    values[at + 15 * i..at + 15 * (i + 1)]
  }

  function SlotView(values: seq<Word>, at: nat, i: nat): Option<NeighborView>
    requires at + 15 * (i + 1) <= |values|
  {
    DecodeNeighbor(SlotBlock(values, at, i))
  }

  lemma SlotExact(values: seq<Word>, at: nat, i: nat)
    requires at + 15 * (i + 1) <= |values|
    ensures SlotView(values, at, i).Some? <==> TagsExact(values, at, i)
    ensures SlotView(values, at, i).Some? ==>
              (SlotView(values, at, i).value.valid <==> AtLeastHalf(SlotWord(values, at, i, 14)))
  {
    var block := SlotBlock(values, at, i);
    assert block[7] == SlotWord(values, at, i, 7) && block[8] == SlotWord(values, at, i, 8);
    assert block[9] == SlotWord(values, at, i, 9) && block[10] == SlotWord(values, at, i, 10);
  }

  lemma SlotShift(values: seq<Word>, at: nat, i: nat)
    requires at + 15 * (i + 2) <= |values|
    ensures SlotView(values, at + 15, i) == SlotView(values, at, i + 1)
  {
    assert SlotBlock(values, at + 15, i) == SlotBlock(values, at, i + 1);
  }

  lemma FirstSlot(values: seq<Word>, at: nat)
    requires at + 15 <= |values|
    ensures values[at..][..15] == SlotBlock(values, at, 0) && values[at..][15..] == values[at + 15..]
  {
  }

  /** Neighbors that are decoded are decoded slot by slot. */
  lemma {:induction false} SlotDecoded(values: seq<Word>, at: nat, n: nat, i: nat)
    requires at + 15 * n <= |values| && i < n && DecodeNeighbors(values[at..], n).Some?
    ensures |DecodeNeighbors(values[at..], n).value| == n
    ensures Some(DecodeNeighbors(values[at..], n).value[i]) == SlotView(values, at, i)
    decreases n
  {
    FirstSlot(values, at);
    if n > 1 {
      SlotDecoded(values, at + 15, n - 1, if i > 0 then i - 1 else 0);
      if i > 0 { SlotShift(values, at, i - 1); }
    }
  }

  lemma {:induction false} SlotsSuffice(values: seq<Word>, at: nat, n: nat)
    requires at + 15 * n <= |values| && forall i: nat | i < n :: SlotView(values, at, i).Some?
    ensures DecodeNeighbors(values[at..], n).Some?
    decreases n
  {
    if n > 0 {
      FirstSlot(values, at);
      assert SlotView(values, at, 0).Some?;
      var next := at + 15;
      forall i: nat | i < n - 1 ensures SlotView(values, next, i).Some? { SlotShift(values, at, i); }
      SlotsSuffice(values, next, n - 1);
    }
  }

  function FlaggedSlots(values: seq<Word>, at: nat, n: nat): set<int>
    requires at + 15 * n <= |values|
  {
    set i | 0 <= i < n && AtLeastHalf(SlotWord(values, at, i, 14))
  }

  /** Neighbors are decoded if and only if every tag chunk is exact, and the flags are counted. */
  lemma NeighborsExactly(values: seq<Word>, at: nat, n: nat)
    requires at + 15 * n <= |values|
    ensures DecodeNeighbors(values[at..], n).Some? <==> forall i: nat | i < n :: TagsExact(values, at, i)
    ensures DecodeNeighbors(values[at..], n).Some? ==>
              CountValid(DecodeNeighbors(values[at..], n).value) == |FlaggedSlots(values, at, n)|
  {
    var r := DecodeNeighbors(values[at..], n);
    if r.Some? {
      forall i: nat | i < n ensures TagsExact(values, at, i) {
        SlotDecoded(values, at, n, i);
        SlotExact(values, at, i);
      }
      FlagsDecoded(values, at, n);
    }
    if forall i: nat | i < n :: TagsExact(values, at, i) {
      forall i: nat | i < n ensures SlotView(values, at, i).Some? { SlotExact(values, at, i); }
      SlotsSuffice(values, at, n);
    }
  }

  lemma FlagsDecoded(values: seq<Word>, at: nat, n: nat)
    requires at + 15 * n <= |values| && DecodeNeighbors(values[at..], n).Some?
    ensures CountValid(DecodeNeighbors(values[at..], n).value) == |FlaggedSlots(values, at, n)|
  {
    var ns := DecodeNeighbors(values[at..], n).value;
    CountIsFlags(ns);
    if n > 0 { SlotDecoded(values, at, n, 0); }
    forall i: int ensures i in Flags(ns) <==> i in FlaggedSlots(values, at, n) {
      if 0 <= i < n {
        SlotDecoded(values, at, n, i);
        SlotExact(values, at, i);
      }
    }
    assert Flags(ns) == FlaggedSlots(values, at, n);
  }

  function FloatsOf(frame: Frame): (ws: seq<Word>)
    requires |frame.payload| == 4 * Floats(frame.header)
    ensures |ws| == Floats(frame.header)
  {
    WholeWords(Floats(frame.header));
    Unpack(frame.payload)
  }

  /** Every tag chunk is exact, and the header counts the slots whose flag is set. */
  predicate SlotsAgree(h: Header, values: seq<Word>)
    requires |values| == Floats(h)
  {
    var at := 8 + 3 * (h.samples * h.channels);
    && (forall i: nat | i < h.maxNeighbors :: TagsExact(values, at, i))
    && h.neighborCount == |FlaggedSlots(values, at, h.maxNeighbors)|
  }

  /**
   A frame that was let through is an observation if and only if it says so, every tag chunk is a
   16-bit number, and the count in its header is the number of slots whose flag is set.
   */
  lemma DecodesExactly(frame: Frame)
    requires Fault(frame).None?
    ensures var h := frame.header;
            DecodeObservation(frame).Success? <==>
              h.kind == 2 && |frame.payload| == 4 * Floats(h) && SlotsAgree(h, FloatsOf(frame))
  {
    var h := frame.header;
    FaultlessExactly(frame);
    if h.kind == FRAME_OBSERVATION {
      NeighborsExactly(Unpack(frame.payload), FieldEnd(h.samples, h.channels), h.maxNeighbors);
    }
  }

  // ---------------------------------------------------------------- actions

  /** The words of an action frame that nothing reads: three dimensions, the count, and the last. */
  datatype Unread = Unread(a: Word, b: Word, c: Word, d: Word, e: Word)

  function ActionBytes(p: Parsed, u: Unread): seq<Byte> {
    Pack([0x5754_5245, 4, 3, 84, Low(p.step), High(p.step), Low(p.entity), High(p.entity), u.a, u.b, u.c, u.d, 7, u.e])
    + Pack(p.values)
  }

  /** The server takes for an action exactly 56 bytes of header that say so and seven floats. */
  lemma ActionExactly(bytes: seq<Byte>, p: Parsed)
    ensures ParseAction(bytes) == Some(p) <==> |p.values| == 7 && exists u :: bytes == ActionBytes(p, u)
  {
    if ParseAction(bytes) == Some(p) {
      var h := Unpack(bytes[..HEADER_BYTES]);
      UnpackRoundTrip(bytes[..HEADER_BYTES]);
      UnpackRoundTrip(bytes[HEADER_BYTES..]);
      JoinedRoundTrip(h[4], h[5]);
      JoinedRoundTrip(h[6], h[7]);
      var u := Unread(h[8], h[9], h[10], h[11], h[13]);
      assert h == [0x5754_5245, 4, 3, 84, Low(p.step), High(p.step), Low(p.entity), High(p.entity),
                   u.a, u.b, u.c, u.d, 7, u.e];
      assert bytes == bytes[..HEADER_BYTES] + bytes[HEADER_BYTES..] == ActionBytes(p, u);
    } else if u :| |p.values| == 7 && bytes == ActionBytes(p, u) {
      ActionRead(bytes, p, u);
    }
  }

  lemma ActionRead(bytes: seq<Byte>, p: Parsed, u: Unread)
    requires |p.values| == 7 && bytes == ActionBytes(p, u)
    ensures ParseAction(bytes) == Some(p)
  {
    var h := [0x5754_5245, 4, 3, 84, Low(p.step), High(p.step), Low(p.entity), High(p.entity),
              u.a, u.b, u.c, u.d, 7, u.e];
    assert bytes[..HEADER_BYTES] == Pack(h) && bytes[HEADER_BYTES..] == Pack(p.values);
    PackRoundTrip(h);
    PackRoundTrip(p.values);
    LongRoundTrip(p.step);
    LongRoundTrip(p.entity);
  }

  ghost predicate InPlaces(values: seq<Word>, length: real, a: ActionTensor)
    requires |values| == 7
  {
    && KeptShort(Force(ValueOf(values[0]), ValueOf(values[1]), length), a.force)
    && KeptWithin(ValueOf(values[2]), a.torque, -1.0, 1.0) && KeptWithin(ValueOf(values[3]), a.clamp, 0.0, 1.0)
    && KeptWithin(ValueOf(values[4]), a.fabricate, 0.0, 1.0)
    && KeptWithin(ValueOf(values[5]), a.frequency, -16.0, 16.0) && SameAngle(ValueOf(values[6]), a.phase)
  }

  /** The server cuts off a stream exactly what starts like a frame and is as long as it says. */
  lemma ServerReadsExactly(stream: seq<Byte>, bytes: seq<Byte>, rest: seq<Byte>)
    ensures ServerRead(stream) == Some((bytes, rest)) <==>
              && stream == bytes + rest && 56 <= |bytes| <= 16_777_216
              && Unpack(bytes[..56])[0] == 0x5754_5245 && Unpack(bytes[..56])[3] == |bytes|
  {
    if ServerRead(stream) == Some((bytes, rest)) {
      assert bytes[..56] == stream[..56] && stream == bytes + rest;
    }
    if stream == bytes + rest && |bytes| >= 56 {
      assert stream[..56] == bytes[..56] && stream[..|bytes|] == bytes && stream[|bytes|..] == rest;
    }
  }

  /** The floats in their places: force, torque, clamp, fabrication, frequency and phase. */
  lemma ActionInPlaces(step: Long, entity: Long, values: seq<Word>, length: real)
    requires |values| == 7 && EncodeAction(step, entity, values).Success?
    requires Measured(Force(ValueOf(values[0]), ValueOf(values[1]), length))
    ensures var r := DecodeAction(EncodeAction(step, entity, values).value, length);
            r.Some? && r.value.step == step && r.value.entity == entity && InPlaces(values, length, r.value.action)
  {
    ActionParsed(step, entity, values, []);
    SanitizeKeeps(TensorOf(values, length));
  }
}
