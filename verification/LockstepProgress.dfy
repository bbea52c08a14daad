/**
 Whether an exchange can still end well: from which states some continuation, in which no
 exchange is abandoned, makes the server and the client agree on an action.
 */
module LockstepProgress {
  import opened Wrappers
  import opened Negotiation
  import opened Actions
  import opened LockstepFrames
  import opened LockstepServer
  import opened LockstepClient
  import opened LockstepSystem
  import opened LockstepSafety
  import opened LockstepPause

  // ---------------------------------------------------------------- patient continuations

  /** Some run that abandons no exchange leads from `y` to `z`. */
  ghost predicate Leads(y: System, z: System) {
    exists moves :: RunnableFrom(y, moves) && Patient(y, moves) && RunFrom(y, moves) == z
  }

  ghost predicate Mild(y: System, move: Move) {
    Enabled(y, move) && !(move.ServerIo? && Abandons(y.server.pc, move.reply))
  }

  lemma LeadsNowhere(y: System)
    ensures Leads(y, y)
  {
    assert RunnableFrom(y, []) && Patient(y, []) && RunFrom(y, []) == y;
  }

  lemma LeadsBy(y: System, move: Move, z: System)
    requires Mild(y, move) && Leads(Step(y, move), z)
    ensures Leads(y, z)
  {
    var x := Step(y, move);
    var moves :| RunnableFrom(x, moves) && Patient(x, moves) && RunFrom(x, moves) == z;
    var all := [move] + moves;
    assert all[0] == move && all[1..] == moves;
    assert RunnableFrom(y, all) && Patient(y, all) && RunFrom(y, all) == z;
  }

  lemma LeadsOnce(y: System, move: Move)
    requires Mild(y, move)
    ensures Leads(y, Step(y, move))
  {
    LeadsNowhere(Step(y, move));
    LeadsBy(y, move, Step(y, move));
  }

  lemma {:induction false} LeadsOn(y: System, x: System, z: System)
    requires Leads(y, x) && Leads(x, z)
    ensures Leads(y, z)
  {
    var moves :| RunnableFrom(y, moves) && Patient(y, moves) && RunFrom(y, moves) == x;
    LeadsAfter(y, moves, z);
  }

  lemma {:induction false} LeadsAfter(y: System, moves: seq<Move>, z: System)
    requires RunnableFrom(y, moves) && Patient(y, moves) && Leads(RunFrom(y, moves), z)
    ensures Leads(y, z)
    decreases |moves|
  {
    if moves != [] {
      LeadsAfter(Step(y, moves[0]), moves[1..], z);
      LeadsBy(y, moves[0], z);
    }
  }

  // ---------------------------------------------------------------- what gives hope

  /** An action for the outstanding observation is on its way, whatever has become of the connection. */
  predicate ActionAfloat(y: System) {
    && Outstanding(y.server).Some? && Current(y.server).Some? && Current(y.server).value < |y.conns|
    && y.conns[Current(y.server).value].toServer != []
  }

  /** Every connection that the server still has to take a resume request from has one. */
  predicate BacklogOk(y: System) {
    && (forall i | y.accepted <= i < |y.conns| :: y.conns[i].toServer != [])
    && (y.server.pc.AwaitingResume? ==>
          y.server.pc.conn < |y.conns| && y.conns[y.server.pc.conn].toServer != [])
  }

  /** The client knows the session, or is about to. */
  predicate Introduced(y: System) {
    || y.client.metadata.Some?
    || (y.client.stream.Some? && y.client.stream.value < |y.conns| && y.conns[y.client.stream.value].toClient != [])
  }

  predicate Hopeful(y: System) {
    ActionAfloat(y) || (BacklogOk(y) && Introduced(y))
  }

  /** In the middle of the exchange, and in order. */
  ghost predicate Busy(y: System, x: Exchange, results: seq<Agreement>) {
    Inv(y) && Underway(y.server.pc) == Some(x) && y.results == results
  }

  // ---------------------------------------------------------------- the server catches up

  /** The client is offline and knows the session; all connections are dead. */
  ghost predicate Offline(y: System, x: Exchange, results: seq<Agreement>) {
    && Busy(y, x, results) && BacklogOk(y)
    && y.client.pc.Ready? && y.client.stream.None? && y.client.metadata.Some?
  }

  function Distance(pc: Pc): nat {
    match pc
    case AwaitingResume(_, _) => 5
    case Greeting(_, _, _) => 4
    case Draining(_, _, _, _) => 3
    case Announcing(_, _) => 2
    case Accepting(_) => 0
    case _ => 1
  }

  function Left(pc: Pc): nat {
    if pc.Draining? then |pc.rest| else 0
  }

  /** The server's next answer, with nobody there any more. */
  function NextReply(y: System): Reply
    requires BacklogOk(y)
  {
    match y.server.pc
    case Accepting(_) => Connected(y.accepted)
    case AwaitingResume(conn, _) => Arrived(y.conns[conn].toServer[0])
    case WritingObservation(_) => Failed(Disconnected)
    case WritingExtension(_) => Failed(Disconnected)
    case AwaitingAction(_) => Failed(Disconnected)
    case _ => Wrote
  }

  lemma NextEnabled(y: System)
    requires ServerOk(y) && ClientOk(y) && BacklogOk(y) && y.client.stream.None? && Underway(y.server.pc).Some?
    requires y.server.pc.Accepting? ==> y.accepted < |y.conns|
    ensures Mild(y, ServerIo(NextReply(y)))
  {
  }

  /** What comes of it. */
  lemma NextServer(y: System)
    requires ServerOk(y) && BacklogOk(y) && Underway(y.server.pc).Some? && Mild(y, ServerIo(NextReply(y)))
    ensures var z := Step(y, ServerIo(NextReply(y)));
            && z.client == y.client && |z.conns| == |y.conns| && BacklogOk(z)
            && y.accepted <= z.accepted <= |z.conns| && !(y.server.pc.AwaitingAction? && NextReply(y).Arrived?)
            && (z.accepted == y.accepted ==>
                  || Distance(z.server.pc) < Distance(y.server.pc)
                  || (Distance(z.server.pc) == Distance(y.server.pc) && Left(z.server.pc) < Left(y.server.pc)))
  {
  }

  /** With the client offline the server gets through its backlog, and waits for a connection. */
  lemma {:induction false} CatchUp(y: System, x: Exchange, results: seq<Agreement>) returns (z: System)
    requires Offline(y, x, results)
    ensures Leads(y, z) && Offline(z, x, results) && z.server.pc == Accepting(x) && z.accepted == |z.conns|
    decreases |y.conns| - y.accepted, Distance(y.server.pc), Left(y.server.pc)
  {
    if y.server.pc.Accepting? && y.accepted == |y.conns| {
      LeadsNowhere(y);
      z := y;
    } else {
      NextEnabled(y);
      NextServer(y);
      var move := ServerIo(NextReply(y));
      StepInv(y, move);
      IoEnds(y, NextReply(y));
      z := CatchUp(Step(y, move), x, results);
      LeadsBy(y, move, z);
    }
  }

  // ---------------------------------------------------------------- the client goes offline

  /** Nothing changes for the server. */
  predicate SameForServer(y: System, z: System) {
    && z.server == y.server && z.accepted == y.accepted && z.results == y.results && |z.conns| == |y.conns|
    && forall i | 0 <= i < |y.conns| :: z.conns[i].toServer == y.conns[i].toServer
  }

  lemma StillBusy(y: System, move: Move, x: Exchange, results: seq<Agreement>)
    requires Busy(y, x, results) && BacklogOk(y) && Enabled(y, move) && !move.ServerIo?
    requires SameForServer(y, Step(y, move))
    ensures Mild(y, move) && Busy(Step(y, move), x, results) && BacklogOk(Step(y, move))
  {
    StepInv(y, move);
  }

  /** Being introduced. */
  lemma MeetServer(y: System, x: Exchange, results: seq<Agreement>) returns (z: System)
    requires Busy(y, x, results) && BacklogOk(y) && Introduced(y)
    ensures Leads(y, z) && Busy(z, x, results) && BacklogOk(z) && z.client.metadata.Some?
  {
    z := y;
    LeadsNowhere(y);
    if y.client.metadata.None? {
      z := Step(y, ClientRead);
      NextFrameAccepted(y);
      StillBusy(y, ClientRead, x, results);
      LeadsOnce(y, ClientRead);
    }
  }

  /** A client that reads gives up when its connection breaks; what it had sent is still on its way. */
  lemma StopReading(y: System, x: Exchange, results: seq<Agreement>) returns (z: System)
    requires Busy(y, x, results) && BacklogOk(y) && y.client.metadata.Some?
    ensures Leads(y, z) && Busy(z, x, results) && BacklogOk(z) && z.client.metadata.Some? && z.client.pc.Ready?
  {
    z := y;
    LeadsNowhere(y);
    if !y.client.pc.Ready? {
      var i := y.client.stream.value;
      var snap := Break(i, 0, |y.conns[i].toServer|);
      assert y.conns[i].toServer[..|y.conns[i].toServer|] == y.conns[i].toServer;
      StillBusy(y, snap, x, results);
      var broken := Step(y, snap);
      StillBusy(broken, ClientEof, x, results);
      z := Step(broken, ClientEof);
      LeadsOnce(broken, ClientEof);
      LeadsBy(y, snap, z);
    }
  }

  lemma GoOffline(y: System, x: Exchange, results: seq<Agreement>) returns (z: System)
    requires Busy(y, x, results) && BacklogOk(y) && Introduced(y)
    ensures Leads(y, z) && Offline(z, x, results)
  {
    var met := MeetServer(y, x, results);
    var ready := StopReading(met, x, results);
    StillBusy(ready, ClientClose, x, results);
    z := Step(ready, ClientClose);
    LeadsOnce(ready, ClientClose);
    LeadsOn(y, met, ready);
    LeadsOn(y, ready, z);
  }

  // ---------------------------------------------------------------- and comes back

  /** Server and client on the same live connection, with nothing on its way. */
  ghost predicate Talking(y: System, x: Exchange, results: seq<Agreement>, n: nat) {
    && Busy(y, x, results) && y.accepted == |y.conns| == n + 1
    && Current(y.server) == Some(n) && y.client.stream == Some(n) && y.client.decision.None?
    && y.conns[n].alive && y.conns[n].toClient == [] && y.conns[n].toServer == []
  }

  lemma Call(y: System, x: Exchange, results: seq<Agreement>) returns (z: System)
    requires Offline(y, x, results) && y.server.pc == Accepting(x) && y.accepted == |y.conns|
    ensures Leads(y, z) && Busy(z, x, results) && z.server == y.server && z.accepted == y.accepted
    ensures |z.conns| == |y.conns| + 1 && z.client.stream == Some(|y.conns|)
    ensures z.client.decision.None? && z.client.pc.AwaitingMetadata?
    ensures var c := z.conns[|y.conns|]; c.alive && c.toClient == [] && |c.toServer| == 1
  {
    var move := ClientReconnect(true, true);
    z := Step(y, move);
    StepInv(y, move);
    LeadsOnce(y, move);
  }

  lemma Answered(y: System, x: Exchange, results: seq<Agreement>, n: nat) returns (z: System)
    requires Busy(y, x, results) && y.server.pc == Accepting(x) && y.accepted == n && |y.conns| == n + 1
    requires y.client.stream == Some(n) && y.client.decision.None? && y.client.pc.AwaitingMetadata?
    requires y.conns[n].alive && y.conns[n].toClient == [] && |y.conns[n].toServer| == 1
    ensures Leads(y, z) && Talking(z, x, results, n) && z.server.pc.Greeting? && z.client.pc.AwaitingMetadata?
  {
    var accept := ServerIo(Connected(n));
    var resumed := Step(y, accept);
    StepInv(y, accept);
    IoEnds(y, Connected(n));
    var read := ServerIo(Arrived(y.conns[n].toServer[0]));
    z := Step(resumed, read);
    StepInv(resumed, read);
    IoEnds(resumed, read.reply);
    LeadsOnce(resumed, read);
    LeadsBy(y, accept, z);
  }

  // ---------------------------------------------------------------- the conversation

  /** The server writes and the client reads. */
  lemma Relay(y: System, x: Exchange, results: seq<Agreement>, n: nat) returns (z: System)
    requires Talking(y, x, results, n) && Wants(y.server).Write? && Reading(y.client)
    ensures Leads(y, z) && Busy(z, x, results) && z.accepted == |z.conns| == n + 1
    ensures z.server == Feed(y.server, Wrote) && Current(z.server) == Some(n)
    ensures z.client == Receive(y.client, Incoming(Wants(y.server).frame)) && z.client.stream == Some(n)
    ensures z.conns[n].alive && z.conns[n].toClient == [] && z.conns[n].toServer == []
    ensures Accepted(y.server.config, y.client, ScanAll(y.conns[n].received), Wants(y.server).frame)
  {
    var told := Told(y, x, results, n);
    StepInv(told, ClientRead);
    NextFrameAccepted(told);
    z := Step(told, ClientRead);
    LeadsBy(y, ServerIo(Wrote), z) by {
      LeadsOnce(told, ClientRead);
    }
  }

  lemma ToldServer(y: System, n: nat)
    requires ServerOk(y) && Wants(y.server).Write? && Underway(y.server.pc).Some?
    requires Current(y.server) == Some(n) && y.accepted == |y.conns| == n + 1
    ensures Mild(y, ServerIo(Wrote))
    ensures var z := Step(y, ServerIo(Wrote));
            && z.server == Feed(y.server, Wrote) && Current(z.server) == Some(n) && z.client == y.client
            && z.accepted == |z.conns| == n + 1 && z.conns[n] == WriteTo(y.conns[n], Wants(y.server).frame)
  {
  }

  lemma Told(y: System, x: Exchange, results: seq<Agreement>, n: nat) returns (z: System)
    requires Talking(y, x, results, n) && Wants(y.server).Write?
    ensures Mild(y, ServerIo(Wrote)) && z == Step(y, ServerIo(Wrote)) && Busy(z, x, results)
    ensures z.server == Feed(y.server, Wrote) && Current(z.server) == Some(n) && z.client == y.client
    ensures z.accepted == |z.conns| == n + 1 && z.conns[n] == WriteTo(y.conns[n], Wants(y.server).frame)
  {
    ToldServer(y, n);
    z := Step(y, ServerIo(Wrote));
    StepInv(y, ServerIo(Wrote));
    IoEnds(y, Wrote);
  }

  /** Metadata first; the client then asks for a decision. */
  lemma Greeted(y: System, x: Exchange, results: seq<Agreement>, n: nat) returns (z: System)
    requires Talking(y, x, results, n) && y.server.pc.Greeting? && y.client.pc.AwaitingMetadata?
    ensures Leads(y, z) && Talking(z, x, results, n) && z.client.pc == AwaitingFrame
    ensures z.server.pc.Draining? || z.server.pc.Announcing?
  {
    var met := Relay(y, x, results, n);
    z := Step(met, CallNextDecision);
    StepInv(met, CallNextDecision);
    LeadsOnce(met, CallNextDecision);
    LeadsOn(y, met, z);
  }

  /** Lifecycle events, as many as are waiting, and the observation. */
  lemma {:induction false} Observed(y: System, x: Exchange, results: seq<Agreement>, n: nat) returns (z: System)
    requires Talking(y, x, results, n) && y.client.pc == AwaitingFrame
    requires y.server.pc.Draining? || y.server.pc.Announcing? || y.server.pc.WritingObservation?
    ensures Leads(y, z) && Talking(z, x, results, n)
    ensures z.server.pc == WritingExtension(x) && z.client.pc == AwaitingExtension(x.observation)
    decreases Distance(y.server.pc), Left(y.server.pc)
  {
    var next := Relay(y, x, results, n);
    if y.server.pc.WritingObservation? {
      z := next;
    } else {
      z := Observed(next, x, results, n);
      LeadsOn(y, next, z);
    }
  }

  /** The extension, the decision, the action. */
  lemma Decided(y: System, x: Exchange, results: seq<Agreement>, n: nat, action: ActionTensor) returns (z: System)
    requires Talking(y, x, results, n) && Sendable(action)
    requires y.server.pc == WritingExtension(x) && y.client.pc == AwaitingExtension(x.observation)
    ensures Leads(y, z) && Agreed(results, z, x) && z.results[|results|].action == Sanitize(action)
  {
    var asked := Relay(y, x, results, n);
    z := Replied(asked, x, results, n, action);
    LeadsOn(y, asked, z);
  }

  lemma Replied(y: System, x: Exchange, results: seq<Agreement>, n: nat, action: ActionTensor) returns (z: System)
    requires Busy(y, x, results) && y.server.pc == AwaitingAction(x) && Current(y.server) == Some(n)
    requires y.client.pc.Ready? && y.client.decision.Some? && y.client.stream == Some(n) && Sendable(action)
    requires n < |y.conns| && y.conns[n].alive && y.conns[n].toServer == []
    ensures Leads(y, z) && Agreed(results, z, x) && z.results[|results|].action == Sanitize(action)
  {
    var send := ClientSend(action, true, false);
    var sent := Step(y, send);
    StepInv(y, send);
    z := Heard(sent, x, results, n);
    LeadsBy(y, send, z);
  }

  /** The server reads the action it waits for. */
  lemma Heard(y: System, x: Exchange, results: seq<Agreement>, n: nat) returns (z: System)
    requires Busy(y, x, results) && y.server.pc == AwaitingAction(x) && Current(y.server) == Some(n) && n < |y.conns|
    requires y.conns[n].toServer != [] && y.conns[n].toServer[0].ActionFrame?
    ensures Leads(y, z) && Agreed(results, z, x)
    ensures z.results[|results|].action == Sanitize(y.conns[n].toServer[0].action)
  {
    var read := ServerIo(Arrived(y.conns[n].toServer[0]));
    IoEnds(y, read.reply);
    z := Step(y, read);
    LeadsOnce(y, read);
  }

  /** The first thing agreed after `before` is an action for that exchange. */
  predicate Agreed(before: seq<Agreement>, z: System, x: Exchange) {
    |z.results| > |before| && z.results[|before|].observation == x.observation
  }

  /** Whatever the client would like to do: it can still come to it. */
  lemma AnyAction(y: System, x: Exchange, action: ActionTensor) returns (z: System)
    requires Busy(y, x, y.results) && BacklogOk(y) && Introduced(y) && Sendable(action)
    ensures Leads(y, z) && Agreed(y.results, z, x) && z.results[|y.results|].action == Sanitize(action)
  {
    var results := y.results;
    var offline := GoOffline(y, x, results);
    var idle := CatchUp(offline, x, results);
    var n := |idle.conns|;
    var called := Call(idle, x, results);
    var answered := Answered(called, x, results, n);
    var greeted := Greeted(answered, x, results, n);
    var observed := Observed(greeted, x, results, n);
    z := Decided(observed, x, results, n, action);
    LeadsOn(y, offline, idle);
    LeadsOn(y, idle, called);
    LeadsOn(y, called, answered);
    LeadsOn(y, answered, greeted);
    LeadsOn(y, greeted, observed);
    LeadsOn(y, observed, z);
  }

  /** An action that is on its way can arrive. */
  lemma ArrivesAfloat(y: System, x: Exchange) returns (z: System)
    requires Busy(y, x, y.results) && ActionAfloat(y)
    ensures Leads(y, z) && Agreed(y.results, z, x)
  {
    if y.server.pc.WritingExtension? {
      AfloatExtension(y);
      var next := Step(y, ServerIo(Wrote));
      StepInv(y, ServerIo(Wrote));
      IoEnds(y, Wrote);
      z := ArrivesAwaited(next, x);
      LeadsBy(y, ServerIo(Wrote), z);
    } else {
      z := ArrivesAwaited(y, x);
    }
  }

  lemma AfloatExtension(y: System)
    requires ServerOk(y) && ActionAfloat(y) && y.server.pc.WritingExtension?
    ensures Mild(y, ServerIo(Wrote))
    ensures ActionAfloat(Step(y, ServerIo(Wrote))) && Step(y, ServerIo(Wrote)).server.pc.AwaitingAction?
  {
  }

  lemma ArrivesAwaited(y: System, x: Exchange) returns (z: System)
    requires Busy(y, x, y.results) && ActionAfloat(y) && y.server.pc.AwaitingAction?
    ensures Leads(y, z) && Agreed(y.results, z, x)
  {
    var read := ServerIo(Arrived(y.conns[Current(y.server).value].toServer[0]));
    IoEnds(y, read.reply);
    z := Step(y, read);
    LeadsOnce(y, read);
  }

  // ---------------------------------------------------------------- what is lost stays lost

  /** A client that has no metadata yet has had one connection only, and metadata is the first it is told there. */
  ghost predicate Acquainted(y: System) {
    y.client.metadata.None? ==>
      && |y.conns| == 1
      && (y.conns[0].alive && y.conns[0].sent == [] ==>
            y.server.pc.Refused? || (y.server.pc.Greeting? && y.server.pc.resumed.None?))
  }

  lemma AcquaintedServer(y: System, reply: Reply)
    requires ServerOk(y) && Acquainted(y) && Enabled(y, ServerIo(reply))
    ensures Acquainted(Step(y, ServerIo(reply)))
  {
  }

  lemma AcquaintedClient(y: System, move: Move)
    requires ClientOk(y) && Acquainted(y) && Enabled(y, move) && !move.ServerIo?
    ensures Acquainted(Step(y, move))
  {
  }

  lemma AcquaintedStep(y: System, move: Move)
    requires Inv(y) && Acquainted(y) && Enabled(y, move)
    ensures Acquainted(Step(y, move))
  {
    if move.ServerIo? { AcquaintedServer(y, move.reply); } else { AcquaintedClient(y, move); }
  }

  lemma {:induction false} AcquaintedRun(y: System, moves: seq<Move>)
    requires Inv(y) && Acquainted(y) && RunnableFrom(y, moves)
    ensures Acquainted(RunFrom(y, moves))
    decreases |moves|
  {
    if moves != [] {
      AcquaintedStep(y, moves[0]);
      StepInv(y, moves[0]);
      AcquaintedRun(Step(y, moves[0]), moves[1..]);
    }
  }

  lemma ReachableAcquainted(config: Config, y: System)
    requires Reachable(config, y)
    ensures Acquainted(y)
  {
    var moves :| RunnableFrom(Initial(config), moves) && RunFrom(Initial(config), moves) == y;
    InitialInv(config);
    AcquaintedRun(Initial(config), moves);
  }

  lemma AfloatServer(y: System, reply: Reply)
    requires ServerOk(y) && !ActionAfloat(y) && Mild(y, ServerIo(reply)) && Underway(y.server.pc).Some?
    ensures !ActionAfloat(Step(y, ServerIo(reply)))
  {
  }

  /** A connection from which no resume request will ever come. */
  predicate MuteAt(y: System, i: nat) {
    && i < |y.conns| && y.conns[i].toServer == []
    && (y.accepted <= i || (y.server.pc.AwaitingResume? && y.server.pc.conn == i))
  }

  lemma MuteBacklog(y: System) returns (i: nat)
    requires ServerOk(y) && !BacklogOk(y)
    ensures MuteAt(y, i)
  {
    if y.server.pc.AwaitingResume? && y.conns[y.server.pc.conn].toServer == [] {
      i := y.server.pc.conn;
    } else {
      i :| y.accepted <= i < |y.conns| && y.conns[i].toServer == [];
    }
  }

  lemma MuteServer(y: System, reply: Reply, i: nat)
    requires ServerOk(y) && MuteAt(y, i) && Mild(y, ServerIo(reply)) && Underway(y.server.pc).Some?
    ensures MuteAt(Step(y, ServerIo(reply)), i)
  {
  }

  lemma BacklogServer(y: System, reply: Reply)
    requires ServerOk(y) && !BacklogOk(y) && Mild(y, ServerIo(reply)) && Underway(y.server.pc).Some?
    ensures !BacklogOk(Step(y, ServerIo(reply)))
  {
    var i := MuteBacklog(y);
    MuteServer(y, reply, i);
  }

  /** In the middle of an exchange, a client that has not been introduced has lost its only connection. */
  lemma StrangerDead(y: System)
    requires Inv(y) && Acquainted(y) && !Introduced(y) && Underway(y.server.pc).Some?
    ensures |y.conns| == 1 && !y.conns[0].alive
  {
    var c := y.conns[0];
    if c.alive {
      LiveIsLatest(y, 0);
      ScanStarts(c.received);
    }
  }

  /** Only an empty stream has not begun. */
  lemma ScanStarts(frames: seq<Frame>)
    ensures ScanAll(frames).phase == Start <==> frames == []
  {
  }

  lemma IntroducedServer(y: System, reply: Reply)
    requires Inv(y) && Acquainted(y) && !Introduced(y) && Mild(y, ServerIo(reply)) && Underway(y.server.pc).Some?
    ensures !Introduced(Step(y, ServerIo(reply)))
  {
    StrangerDead(y);
    DeadStaysQuiet(y, reply);
  }

  lemma DeadStaysQuiet(y: System, reply: Reply)
    requires |y.conns| == 1 && !y.conns[0].alive && !Introduced(y) && Enabled(y, ServerIo(reply))
    ensures !Introduced(Step(y, ServerIo(reply)))
  {
  }

  /** On such a connection the client has nothing to decide. */
  lemma MuteSilent(y: System, i: nat)
    requires ServerOk(y) && ClientOk(y) && MuteAt(y, i) && ConnOk(y.server.config, y.conns[i])
    requires y.client.stream == Some(i) && y.conns[i].alive
    ensures y.client.decision.None?
  {
    assert Fresh(y.server.config, y.conns[i]);
    ObservationsBound(y.server.config, y.conns[i]);
    assert y.conns[i].received == [];
  }

  lemma MuteOther(y: System, move: Move, i: nat)
    requires MuteAt(y, i) && Enabled(y, move) && !move.ServerIo? && !move.ClientSend? && Underway(y.server.pc).Some?
    ensures MuteAt(Step(y, move), i)
  {
  }

  lemma MuteSend(y: System, move: Move, i: nat)
    requires MuteAt(y, i) && Enabled(y, move) && move.ClientSend?
    requires y.client.stream == Some(i) ==> !y.conns[i].alive
    ensures MuteAt(Step(y, move), i)
  {
  }

  lemma MuteClient(y: System, move: Move, i: nat)
    requires Inv(y) && MuteAt(y, i) && Enabled(y, move) && !move.ServerIo? && Underway(y.server.pc).Some?
    ensures MuteAt(Step(y, move), i)
  {
    if move.ClientSend? {
      if y.client.stream == Some(i) && y.conns[i].alive { MuteSilent(y, i); }
      MuteSend(y, move, i);
    } else {
      MuteOther(y, move, i);
    }
  }

  /** An action is only sent on the latest connection, and not while an earlier one is mute. */
  lemma AfloatSend(y: System, move: Move, i: nat)
    requires ServerOk(y) && ClientOk(y) && !ActionAfloat(y) && Enabled(y, move) && move.ClientSend?
    requires MuteAt(y, i)
    ensures !ActionAfloat(Step(y, move))
  {
  }

  lemma AfloatOther(y: System, move: Move)
    requires ServerOk(y) && !ActionAfloat(y) && Enabled(y, move) && Underway(y.server.pc).Some?
    requires !move.ServerIo? && !move.ClientSend?
    ensures !ActionAfloat(Step(y, move))
  {
  }

  /** Nobody sends an action where the server looks for one. */
  lemma AfloatClient(y: System, move: Move)
    requires Inv(y) && !Hopeful(y) && Mild(y, move) && !move.ServerIo? && Underway(y.server.pc).Some?
    ensures !ActionAfloat(Step(y, move))
  {
    if move.ClientSend? {
      assert Introduced(y);
      var i := MuteBacklog(y);
      AfloatSend(y, move, i);
    } else {
      AfloatOther(y, move);
    }
  }

  lemma BacklogClient(y: System, move: Move)
    requires Inv(y) && !BacklogOk(y) && Mild(y, move) && !move.ServerIo? && Underway(y.server.pc).Some?
    ensures !BacklogOk(Step(y, move))
  {
    var i := MuteBacklog(y);
    MuteClient(y, move, i);
  }

  lemma IntroducedClient(y: System, move: Move)
    requires ClientOk(y) && !Introduced(y) && Mild(y, move) && !move.ServerIo? && Underway(y.server.pc).Some?
    ensures !Introduced(Step(y, move))
  {
  }

  /** In the middle of an exchange nobody but the server's own operations touches the server. */
  lemma ServerAside(y: System, move: Move)
    requires Enabled(y, move) && !move.ServerIo? && Underway(y.server.pc).Some?
    ensures Step(y, move).server == y.server && Step(y, move).results == y.results
  {
  }

  lemma LostByServer(y: System, reply: Reply)
    requires Inv(y) && Acquainted(y) && !Hopeful(y) && Mild(y, ServerIo(reply)) && Underway(y.server.pc).Some?
    ensures !Hopeful(Step(y, ServerIo(reply)))
  {
    AfloatServer(y, reply);
    if !BacklogOk(y) { BacklogServer(y, reply); } else { IntroducedServer(y, reply); }
  }

  lemma LostByClient(y: System, move: Move)
    requires Inv(y) && !Hopeful(y) && Mild(y, move) && !move.ServerIo? && Underway(y.server.pc).Some?
    ensures !Hopeful(Step(y, move))
  {
    AfloatClient(y, move);
    if !BacklogOk(y) { BacklogClient(y, move); } else { IntroducedClient(y, move); }
  }

  /** An exchange that is not abandoned goes on unless an action arrives for it. */
  lemma BusyByServer(y: System, reply: Reply, x: Exchange, results: seq<Agreement>)
    requires Busy(y, x, results) && !ActionAfloat(y) && Mild(y, ServerIo(reply))
    ensures Busy(Step(y, ServerIo(reply)), x, results)
  {
    StepInv(y, ServerIo(reply));
    IoEnds(y, reply);
  }

  lemma LostStep(y: System, move: Move, x: Exchange, results: seq<Agreement>)
    requires Busy(y, x, results) && Acquainted(y) && !Hopeful(y) && Mild(y, move)
    ensures Busy(Step(y, move), x, results) && Acquainted(Step(y, move)) && !Hopeful(Step(y, move))
  {
    AcquaintedStep(y, move);
    if move.ServerIo? {
      BusyByServer(y, move.reply, x, results);
      LostByServer(y, move.reply);
    } else {
      StepInv(y, move);
      ServerAside(y, move);
      LostByClient(y, move);
    }
  }

  lemma {:induction false} LostRun(y: System, moves: seq<Move>, x: Exchange, results: seq<Agreement>)
    requires Busy(y, x, results) && Acquainted(y) && !Hopeful(y) && RunnableFrom(y, moves) && Patient(y, moves)
    ensures Busy(RunFrom(y, moves), x, results)
    decreases |moves|
  {
    if moves != [] {
      LostStep(y, moves[0], x, results);
      LostRun(Step(y, moves[0]), moves[1..], x, results);
    }
  }

  // ---------------------------------------------------------------- the main result

  /**
   Progress. From a reachable state in the middle of an exchange, some continuation that
   abandons no exchange agrees on an action for it if and only if an action for it is on its
   way, or every connection still to be accepted carries its resume request and the client
   knows the session or is being told of it. Otherwise no such continuation ever does.
   */
  lemma ProgressExactly(config: Config, y: System, x: Exchange)
    requires Reachable(config, y) && Underway(y.server.pc) == Some(x)
    ensures Hopeful(y) <==> exists z :: Leads(y, z) && Agreed(y.results, z, x)
  {
    ReachableInv(config, y);
    ReachableAcquainted(config, y);
    if ActionAfloat(y) {
      var z := ArrivesAfloat(y, x);
    } else if Hopeful(y) {
      assert Sendable(NO_ACTION);
      var z := AnyAction(y, x, NO_ACTION);
    } else if z :| Leads(y, z) && Agreed(y.results, z, x) {
      var moves :| RunnableFrom(y, moves) && Patient(y, moves) && RunFrom(y, moves) == z;
      LostRun(y, moves, x, y.results);
    }
  }

  /**
   Hope can be lost: the request of a client that broke while resuming is gone, and the server
   has yet to take that connection.
   */
  lemma HopeLost(config: Config, x: Exchange)
    requires Typed(config) && Announceable(config) && TypedExchange(x)
    ensures exists y ::
              && Reachable(config, y) && Underway(y.server.pc) == Some(x)
              && !exists z :: Leads(y, z) && Agreed(y.results, z, x)
  {
    var y := Resuming(config, x);
    y := ReachableStep(config, y, Break(1, 0, 0));
    assert y.conns[1].toServer == [] && !BacklogOk(y) && !ActionAfloat(y);
    ProgressExactly(config, y, x);
  }

  /** And then it can be any action that the client is willing to send. */
  lemma ProgressFreely(config: Config, y: System, x: Exchange, action: ActionTensor)
    requires Reachable(config, y) && Underway(y.server.pc) == Some(x)
    requires BacklogOk(y) && Introduced(y) && Sendable(action)
    ensures exists z :: Leads(y, z) && Agreed(y.results, z, x) && z.results[|y.results|].action == Sanitize(action)
  {
    ReachableInv(config, y);
    var z := AnyAction(y, x, action);
  }
}
