/**
 Server, client and network together. A connection is a pair of FIFOs that may break at any
 moment and lose what is in flight; the client may close, reconnect and call its methods in
 any order; the server exchanges and emits in any order. A run is a list of moves, each
 enabled when it is taken.
 */
module LockstepSystem {
  import opened Wrappers
  import opened Negotiation
  import opened Actions
  import opened LockstepFrames
  import opened LockstepServer
  import opened LockstepClient

  /**
   `sent` is all the server wrote while the connection was up and `received` what the client
   read of it; `answered` counts the actions the server read, `replied` those the client sent.
   */
  datatype Conn = Conn(
    sent: seq<Frame>, received: seq<Frame>, toClient: seq<Frame>, toServer: seq<Frame>,
    alive: bool, answered: nat, replied: nat)

  const NEW_CONN := Conn([], [], [], [], true, 0, 0)

  datatype SentAction = SentAction(observation: Observation, action: ActionTensor)

  /** One Ok result of `exchange`. */
  datatype Agreement = Agreement(observation: Observation, action: ActionTensor, ticket: nat)

  /** `written` is the number of the latest lifecycle event the server wrote to any connection. */
  datatype System = System(
    server: Server, client: Client, conns: seq<Conn>, accepted: nat,
    log: seq<SentAction>, results: seq<Agreement>, written: nat)

  datatype Move =
    | ServerIo(reply: Reply)
    | CallExchange(x: Exchange)
    | CallEmit(tick: nat, kind: LifecycleKind, related: Option<nat>)
    | CallNextDecision
    | ClientRead
    | ClientEof
    | ClientSend(action: ActionTensor, delivered: bool, failed: bool)
    | ClientReconnect(reached: bool, delivered: bool)
    | ClientClose
    | Break(conn: nat, toClient: nat, toServer: nat)

  function Initial(config: Config): System {
    System(
      Server(config, None, 0, [], Greeting(0, 0, None)),
      Client(Some(0), None, None, [], AwaitingMetadata(None)),
      [NEW_CONN], 1, [], [], 0)
  }

  /** The network's side of one server operation. */
  predicate NetworkAllows(y: System, request: Request, reply: Reply) {
    Fits(request, reply) &&
    match request
    case Write(conn, _) => conn < |y.conns| && (reply.Failed? ==> !y.conns[conn].alive && !reply.fault.InvalidData?)
    case Read(conn) =>
      conn < |y.conns| &&
      (if reply.Failed? then !y.conns[conn].alive && !reply.fault.InvalidData?
       else y.conns[conn].toServer != [] && reply.frame == y.conns[conn].toServer[0])
    case Accept => reply.Connected? ==> reply.conn == y.accepted < |y.conns|
    case Nothing => false
  }

  function WriteTo(c: Conn, frame: Frame): Conn {
    if c.alive then c.(sent := c.sent + [frame], toClient := c.toClient + [frame]) else c
  }

  function Network(y: System, request: Request, reply: Reply): System
    requires NetworkAllows(y, request, reply)
  {
    match request
    case Write(conn, frame) =>
      if reply.Failed? then y.(conns := y.conns[conn := y.conns[conn].(toServer := [])])
      else y.(conns := y.conns[conn := WriteTo(y.conns[conn], frame)],
              written := if frame.LifecycleFrame? then frame.event.sequence else y.written)
    case Read(conn) =>
      var c := y.conns[conn];
      if reply.Failed? then y.(conns := y.conns[conn := c.(toServer := [])])
      else y.(conns := y.conns[conn := c.(toServer := c.toServer[1..],
                                          answered := c.answered + if reply.frame.ActionFrame? then 1 else 0)])
    case Accept => if reply.Connected? then y.(accepted := reply.conn + 1) else y
    case Nothing => y
  }

  function Record(results: seq<Agreement>, before: Server, reply: Reply, after: Server): seq<Agreement> {
    if before.pc.AwaitingAction? && reply.Arrived? && reply.frame.ActionFrame?
       && after.pc == Idle(Some(Completed(Sanitize(reply.frame.action)))) then
      results + [Agreement(before.pc.x.observation, Sanitize(reply.frame.action), reply.frame.ticket)]
    else results
  }

  /** The Rust types of the arguments, and what `act` guarantees of an extension. */
  predicate TypedExchange(x: Exchange) {
    x.observation.step <= U64_MAX && x.observation.entity <= U64_MAX && ValidExtension(x.extension)
  }

  ghost predicate Enabled(y: System, move: Move) {
    match move
    case ServerIo(reply) => Wired(y.server) && NetworkAllows(y, Wants(y.server), reply)
    case CallExchange(x) => AtRest(y.server) && TypedExchange(x)
    case CallEmit(tick, _, related) =>
      AtRest(y.server) && tick <= U64_MAX && (related.Some? ==> related.value <= U64_MAX)
    case CallNextDecision => y.client.pc.Ready? && y.client.decision.None? && y.client.stream.Some?
    case ClientRead =>
      Reading(y.client) && y.client.stream.value < |y.conns| && y.conns[y.client.stream.value].toClient != []
    case ClientEof =>
      Reading(y.client) && y.client.stream.value < |y.conns|
      && !y.conns[y.client.stream.value].alive && y.conns[y.client.stream.value].toClient == []
    case ClientSend(action, delivered, failed) =>
      && Sendable(action) && y.client.pc.Ready? && y.client.decision.Some? && y.client.stream.Some?
      && y.client.stream.value < |y.conns|
      && (delivered ==> y.conns[y.client.stream.value].alive)
      && (!delivered && !failed ==> !y.conns[y.client.stream.value].alive)
    case ClientReconnect(_, _) => y.client.pc.Ready? && y.client.metadata.Some?
    case ClientClose => y.client.pc.Ready?
    case Break(conn, toClient, toServer) =>
      conn < |y.conns| && toClient <= |y.conns[conn].toClient| && toServer <= |y.conns[conn].toServer|
  }

  function Cut(c: Conn, toClient: nat, toServer: nat): Conn
    requires toClient <= |c.toClient| && toServer <= |c.toServer|
  {
    c.(alive := false, toClient := c.toClient[..toClient], toServer := c.toServer[..toServer])
  }

  /** Closing a socket: the peer may still read what had been sent. */
  function CloseStream(y: System): System {
    if y.client.stream.Some? && y.client.stream.value < |y.conns| then
      y.(client := y.client.(stream := None),
         conns := y.conns[y.client.stream.value := y.conns[y.client.stream.value].(alive := false)])
    else y.(client := y.client.(stream := None))
  }

  /** No new socket, or one that takes no request. */
  function GiveUpOn(z: System): System {
    z.(client := z.client.(decision := None, pc := Ready(Some(SocketError))))
  }

  function Reconnected(z: System, credentials: Credentials): System {
    z.(client := z.client.(decision := None, stream := Some(|z.conns|), pc := AwaitingMetadata(Some(credentials))),
       conns := z.conns + [NEW_CONN.(toServer := [ResumeFrame(credentials.sessionId, credentials.resumeToken)])])
  }

  ghost function Step(y: System, move: Move): System
    requires Enabled(y, move)
  {
    match move
    case ServerIo(reply) =>
      var after := Feed(y.server, reply);
      Network(y, Wants(y.server), reply).(server := after, results := Record(y.results, y.server, reply, after))
    case CallExchange(x) => y.(server := BeginExchange(y.server, x))
    case CallEmit(tick, kind, related) => y.(server := BeginEmit(y.server, tick, kind, related))
    case CallNextDecision => y.(client := y.client.(pc := AwaitingFrame))
    case ClientRead =>
      var i := y.client.stream.value;
      var c := y.conns[i];
      var after := Receive(y.client, Incoming(c.toClient[0]));
      y.(client := after,
         conns := y.conns[i := c.(received := c.received + [c.toClient[0]], toClient := c.toClient[1..],
                                  alive := c.alive && after.stream.Some?)])
    case ClientEof => y.(client := Receive(y.client, Eof))
    case ClientSend(action, delivered, failed) =>
      var i := y.client.stream.value;
      var c := y.conns[i];
      var o := y.client.decision.value.observation;
      y.(client := if failed then y.client else y.client.(decision := None),
         log := if delivered then y.log + [SentAction(o, action)] else y.log,
         conns := y.conns[i := c.(alive := c.alive && !failed,
                                  replied := if delivered then c.replied + 1 else c.replied,
                                  toServer := if delivered
                                              then c.toServer + [ActionFrame(o.step, o.entity, action, |y.log|)]
                                              else c.toServer)])
    case ClientReconnect(reached, delivered) =>
      if !reached then GiveUpOn(CloseStream(y))
      else if !delivered then
        var z := GiveUpOn(CloseStream(y));
        z.(conns := z.conns + [NEW_CONN.(alive := false)])
      else Reconnected(CloseStream(y), CredentialsOf(y.client.metadata.value))
    case ClientClose => CloseStream(y)
    case Break(conn, toClient, toServer) => y.(conns := y.conns[conn := Cut(y.conns[conn], toClient, toServer)])
  }

  ghost predicate RunnableFrom(y: System, moves: seq<Move>)
    decreases |moves|
  {
    moves == [] || (Enabled(y, moves[0]) && RunnableFrom(Step(y, moves[0]), moves[1..]))
  }

  ghost function RunFrom(y: System, moves: seq<Move>): System
    requires RunnableFrom(y, moves)
    decreases |moves|
  {
    if moves == [] then y else RunFrom(Step(y, moves[0]), moves[1..])
  }

  // ---------------------------------------------------------------- the invariant

  function Events(frames: seq<Frame>): seq<LifecycleEvent> {
    if frames == [] then []
    else Events(frames[..|frames| - 1]) +
         if frames[|frames| - 1].LifecycleFrame? then [frames[|frames| - 1].event] else []
  }

  predicate GoodMetadata(config: Config, m: Metadata) {
    ValidMetadata(m) && SameSession(MetadataOf(config, 0), m)
  }

  predicate GoodFrame(config: Config, frame: Frame) {
    match frame
    case MetadataFrame(m) => GoodMetadata(config, m)
    case LifecycleFrame(event) => ValidEvent(event)
    case ExtensionFrame(_, extension) => ValidExtension(extension)
    case _ => true
  }

  ghost predicate ConnOk(config: Config, c: Conn) {
    && c.received + c.toClient <= c.sent
    && (c.alive ==> c.received + c.toClient == c.sent)
    && ScanAll(c.sent).phase != Broken
    && c.answered <= c.replied <= ScanAll(c.received).observations
    && ScanAll(c.sent).observations <= c.answered + 1
    && (forall f | f in c.sent :: GoodFrame(config, f))
  }

  predicate Fresh(config: Config, c: Conn) {
    && c.sent == [] && c.replied == 0
    && (c.toServer == [] || c.toServer == [ResumeFrame(config.sessionId, config.resumeToken)])
  }

  /** The connection the server is reading from or writing to. */
  function Current(s: Server): Option<nat> {
    match s.pc
    case AwaitingResume(conn, _) => Some(conn)
    case Greeting(conn, _, _) => Some(conn)
    case Draining(conn, _, _, _) => Some(conn)
    case _ => s.stream
  }

  function Outstanding(s: Server): Option<Observation> {
    match s.pc
    case WritingExtension(x) => Some(x.observation)
    case AwaitingAction(x) => Some(x.observation)
    case _ => None
  }

  /** The phase the wire grammar must be in when the server is at `pc` on a live connection. */
  predicate PhaseAt(pc: Pc, phase: Phase) {
    match pc
    case AwaitingResume(_, _) => phase == Start
    case Greeting(_, _, _) => phase == Start
    case Draining(_, _, _, _) => phase == Greeted || phase == Streaming
    case Announcing(_, _) => phase == Greeted || phase == Streaming
    case WritingExtension(x) => phase == ExtensionDue(x.observation)
    case _ => phase == Streaming
  }

  /** The one action that may be on its way answers the outstanding observation, and is new. */
  ghost predicate Owed(log: seq<SentAction>, results: seq<Agreement>, c: Conn, o: Observation) {
    && c.replied == c.answered + 1 && |c.toServer| == 1
    && c.toServer[0].ActionFrame?
    && c.toServer[0].target == o.step && c.toServer[0].entity == o.entity
    && c.toServer[0].ticket < |log|
    && log[c.toServer[0].ticket] == SentAction(o, c.toServer[0].action)
    && (results != [] ==> results[|results| - 1].ticket < c.toServer[0].ticket)
  }

  ghost predicate CurrentOk(s: Server, log: seq<SentAction>, results: seq<Agreement>, c: Conn) {
    && (s.pc.AwaitingResume? ==> Fresh(s.config, c))
    && (s.pc.Greeting? ==> Fresh(s.config, c) && c.toServer == [])
    && (c.alive ==>
          && PhaseAt(s.pc, ScanAll(c.sent).phase)
          && (if Outstanding(s).Some?
              then ScanAll(c.sent).observations == c.answered + 1 && ScanAll(c.sent).last == Outstanding(s)
              else ScanAll(c.sent).observations == c.answered))
    && (!s.pc.AwaitingResume? && c.toServer != [] ==>
          Outstanding(s).Some? && Owed(log, results, c, Outstanding(s).value))
  }

  /** What the transport's own fields satisfy at every operation. */
  predicate ServerSane(s: Server) {
    && Wired(s)
    && (s.pc.Accepting? || s.pc.AwaitingResume? || s.pc.Greeting? || s.pc.Draining? ==> s.stream.None?)
    && (s.stream.Some? || s.pc.Draining? ==> s.pending == [])
    && ((s.pc.AwaitingResume? || s.pc.Accepting? || s.pc.WritingObservation?
         || s.pc.WritingExtension? || s.pc.AwaitingAction?) ==>
          TypedExchange(s.pc.x))
    && ((s.pc.Greeting? || s.pc.Draining? || s.pc.Announcing?) && s.pc.resumed.Some? ==>
          TypedExchange(s.pc.resumed.value))
    && (s.pc.Greeting? || s.pc.Draining? ==> s.pc.tick <= U64_MAX)
  }

  ghost predicate ServerOk(y: System) {
    var s := y.server;
    && ServerSane(s)
    && y.accepted <= |y.conns|
    && (Current(s).Some? ==>
          Current(s).value + 1 == y.accepted && CurrentOk(s, y.log, y.results, y.conns[Current(s).value]))
    && (forall i | y.accepted <= i < |y.conns| :: Fresh(s.config, y.conns[i]))
  }

  /** How far the client is in the stream it reads, as long as anything can still arrive. */
  ghost predicate ClientInStep(client: Client, c: Conn) {
    var scan := ScanAll(c.received);
    && (c.alive || c.toClient != [] ==>
          && (client.pc.AwaitingMetadata? <==> scan.phase == Start)
          && (client.pc.AwaitingExtension? ==> scan.phase == ExtensionDue(client.pc.observation))
          && (scan.phase.ExtensionDue? ==> client.pc.AwaitingExtension?))
    && (c.alive && client.decision.Some? ==>
          scan.observations == c.replied + 1 && scan.last == Some(client.decision.value.observation))
    && (c.alive && client.pc.AwaitingExtension? ==>
          scan.observations == c.replied + 1 && scan.last == Some(client.pc.observation))
    && (c.alive && client.decision.None? && !client.pc.AwaitingExtension? ==> scan.observations == c.replied)
  }

  ghost predicate ClientOk(y: System) {
    var k := y.client;
    && |y.conns| > 0
    && (k.stream.Some? ==> k.stream.value + 1 == |y.conns| && ClientInStep(k, y.conns[k.stream.value]))
    && (k.stream.None? ==> k.pc.Ready?)
    && (forall i | 0 <= i < |y.conns| - (if k.stream.Some? then 1 else 0) :: !y.conns[i].alive)
    && (!k.pc.Ready? ==> k.decision.None?)
    && (k.metadata.Some? ==> GoodMetadata(y.server.config, k.metadata.value))
    && (k.stream.Some? && !k.pc.AwaitingMetadata? ==> k.metadata.Some?)
    && (k.pc.AwaitingMetadata? && k.pc.expected.Some? ==>
          k.pc.expected.value == CredentialsOf(MetadataOf(y.server.config, 0)))
  }

  /** The events the server has numbered and not yet written. */
  function Waiting(s: Server): seq<LifecycleEvent> {
    match s.pc
    case Draining(_, _, rest, _) => rest
    case Announcing(event, _) => [event]
    case Emitting(event) => [event]
    case _ => s.pending
  }

  /** What the client stored, followed by what is on its way to it. */
  function Story(y: System): seq<LifecycleEvent> {
    y.client.lifecycle +
    if y.client.stream.Some? && y.client.stream.value < |y.conns|
    then Events(y.conns[y.client.stream.value].toClient) else []
  }

  /** The unwritten events come after everything written, in order. */
  ghost predicate QueueOk(s: Server, written: nat) {
    && written <= s.sequence <= U64_MAX
    && Increasing(Waiting(s))
    && (forall e | e in Waiting(s) :: ValidEvent(e) && Precedes(written, e.sequence) && e.sequence <= s.sequence)
  }

  ghost predicate StoryOk(story: seq<LifecycleEvent>, written: nat) {
    && Increasing(story)
    && (forall e | e in story :: e.sequence <= written)
  }

  /** What the client sends: finite, its force as long as it is. */
  predicate Sendable(action: ActionTensor) {
    AllFinite(action) && Measured(action.force)
  }

  /** The agreed action is the sanitized form of the one that was sent for that observation. */
  predicate Answers(result: Agreement, sent: SentAction) {
    result.observation == sent.observation && result.action == Sanitize(sent.action)
  }

  ghost predicate AgreementOk(log: seq<SentAction>, results: seq<Agreement>) {
    && (forall i | 0 <= i < |results| ::
          results[i].ticket < |log| && Answers(results[i], log[results[i].ticket]))
    && (forall i | 0 <= i < |log| :: Sendable(log[i].action))
    && (forall i, j | 0 <= i < j < |results| :: results[i].ticket < results[j].ticket)
  }

  ghost predicate Inv(y: System) {
    && Typed(y.server.config) && Announceable(y.server.config)
    && (forall i | 0 <= i < |y.conns| :: ConnOk(y.server.config, y.conns[i]))
    && ServerOk(y) && ClientOk(y)
    && QueueOk(y.server, y.written) && StoryOk(Story(y), y.written)
    && AgreementOk(y.log, y.results)
  }
}
