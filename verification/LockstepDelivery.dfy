/**
 What gets through: a decision carries the observation and the extension of the exchange that is
 underway, and the client's record of lifecycle events is exactly what it received.
 */
module LockstepDelivery {
  import opened Wrappers
  import opened Negotiation
  import opened Actions
  import opened LockstepFrames
  import opened LockstepServer
  import opened LockstepClient
  import opened LockstepSystem
  import opened LockstepSafety

  // ---------------------------------------------------------------- the ends of a stream

  predicate EndsWith(frames: seq<Frame>, tail: seq<Frame>) {
    |tail| <= |frames| && frames[|frames| - |tail|..] == tail
  }

  /** An observation and its extension, as frames. */
  function Pair(o: Observation, extension: Extension): seq<Frame> {
    [ObservationFrame(o), ExtensionFrame(o.step, extension)]
  }

  /** The latest the server wrote is what it is waiting on. */
  predicate Written(s: Server, c: Conn) {
    c.alive ==>
      && (s.pc.WritingExtension? ==> EndsWith(c.sent, [ObservationFrame(s.pc.x.observation)]))
      && (s.pc.AwaitingAction? ==> EndsWith(c.sent, Pair(s.pc.x.observation, s.pc.x.extension)))
  }

  /** The latest the client read is what it has in hand. */
  predicate Taken(k: Client, c: Conn) {
    && (k.pc.AwaitingExtension? ==> EndsWith(c.received, [ObservationFrame(k.pc.observation)]))
    && (k.decision.Some? ==> EndsWith(c.received, Pair(k.decision.value.observation, k.decision.value.extension)))
  }

  /** All events received, connection after connection. */
  function Heard(conns: seq<Conn>): seq<LifecycleEvent> {
    if conns == [] then [] else Heard(conns[..|conns| - 1]) + Events(conns[|conns| - 1].received)
  }

  ghost predicate Delivered(y: System) {
    && (Current(y.server).Some? ==>
          Current(y.server).value < |y.conns| && Written(y.server, y.conns[Current(y.server).value]))
    && (y.client.stream.Some? ==>
          y.client.stream.value < |y.conns| && Taken(y.client, y.conns[y.client.stream.value]))
    && y.client.lifecycle == Heard(y.conns)
  }

  // ---------------------------------------------------------------- every move keeps it

  lemma {:induction false} HeardSame(a: seq<Conn>, b: seq<Conn>)
    requires |a| == |b| && forall i | 0 <= i < |a| :: a[i].received == b[i].received
    ensures Heard(a) == Heard(b)
  {
    if a != [] { HeardSame(a[..|a| - 1], b[..|b| - 1]); }
  }

  lemma HeardMore(conns: seq<Conn>, c: Conn)
    ensures Heard(conns + [c]) == Heard(conns) + Events(c.received)
  {
    assert (conns + [c])[..|conns|] == conns;
  }

  /** One more frame read on the latest connection. */
  lemma HeardNext(conns: seq<Conn>, c: Conn, frame: Frame)
    requires conns != [] && c.received == conns[|conns| - 1].received + [frame]
    ensures Heard(conns[|conns| - 1 := c]) ==
            Heard(conns) + if frame.LifecycleFrame? then [frame.event] else []
  {
    var front := conns[..|conns| - 1];
    assert conns == front + [conns[|conns| - 1]] && conns[|conns| - 1 := c] == front + [c];
    HeardMore(front, conns[|conns| - 1]);
    HeardMore(front, c);
    EventsConcat(conns[|conns| - 1].received, [frame]);
    assert [frame][..0] == [];
  }

  lemma EndsAppend(frames: seq<Frame>, tail: seq<Frame>, frame: Frame)
    requires EndsWith(frames, tail)
    ensures EndsWith(frames + [frame], tail + [frame])
  {
  }

  /** The transport alone: it waits only on what it has just written. */
  lemma WroteKeeps(s: Server, c: Conn)
    requires Wired(s) && Wants(s).Write? && Written(s, c)
    ensures Written(Feed(s, Wrote), WriteTo(c, Wants(s).frame))
  {
    if s.pc.WritingObservation? {
      WroteObservation(s, c);
    } else if s.pc.WritingExtension? {
      WroteExtension(s, c);
    } else {
      WroteOther(s);
    }
  }

  lemma WroteObservation(s: Server, c: Conn)
    requires Wired(s) && s.pc.WritingObservation?
    ensures Written(Feed(s, Wrote), WriteTo(c, Wants(s).frame))
  {
    EndsLast(c.sent, Wants(s).frame);
  }

  lemma WroteExtension(s: Server, c: Conn)
    requires Wired(s) && s.pc.WritingExtension? && Written(s, c)
    ensures Written(Feed(s, Wrote), WriteTo(c, Wants(s).frame))
  {
    if c.alive { EndsAppend(c.sent, [ObservationFrame(s.pc.x.observation)], Wants(s).frame); }
  }

  lemma WroteOther(s: Server)
    requires Wired(s) && Wants(s).Write? && !s.pc.WritingObservation? && !s.pc.WritingExtension?
    ensures !Feed(s, Wrote).pc.WritingExtension? && !Feed(s, Wrote).pc.AwaitingAction?
  {
  }

  lemma OtherwiseNothing(s: Server, reply: Reply)
    requires Wired(s) && Fits(Wants(s), reply) && !reply.Wrote?
    ensures !Feed(s, reply).pc.WritingExtension? && !Feed(s, reply).pc.AwaitingAction?
  {
  }

  /** Nothing is read or written, though streams may break; nobody takes anything new in hand. */
  ghost predicate Quiet(y: System, z: System) {
    && |z.conns| == |y.conns| && z.client.lifecycle == y.client.lifecycle
    && (forall i | 0 <= i < |y.conns| ::
          && z.conns[i].received == y.conns[i].received && z.conns[i].sent == y.conns[i].sent
          && (z.conns[i].alive ==> y.conns[i].alive))
    && (z.server == y.server
        || (!z.server.pc.WritingExtension? && !z.server.pc.AwaitingAction?
            && (Current(z.server).Some? ==> Current(z.server).value < |y.conns|)))
    && (z.client.stream.Some? ==>
          && z.client.stream == y.client.stream && z.client.decision in {None, y.client.decision}
          && (z.client.pc.AwaitingExtension? ==> z.client.pc == y.client.pc))
  }

  lemma QuietDelivers(y: System, z: System)
    requires Delivered(y) && Quiet(y, z)
    ensures Delivered(z)
  {
    HeardSame(y.conns, z.conns);
  }

  lemma WroteDelivers(y: System)
    requires ServerOk(y) && Delivered(y) && Enabled(y, ServerIo(Wrote))
    ensures Delivered(Step(y, ServerIo(Wrote)))
  {
    var z, i := Step(y, ServerIo(Wrote)), Wants(y.server).conn;
    WriteKeepsCurrent(y.server, y.log, y.results, y.conns[i]);
    WroteKeeps(y.server, y.conns[i]);
    HeardSame(y.conns, z.conns);
  }

  lemma ServerDelivers(y: System, reply: Reply)
    requires Inv(y) && Delivered(y) && Enabled(y, ServerIo(reply))
    ensures Delivered(Step(y, ServerIo(reply)))
  {
    if reply.Wrote? {
      WroteDelivers(y);
    } else {
      StepInv(y, ServerIo(reply));
      OtherwiseNothing(y.server, reply);
      ServerQuiet(y, reply);
      QuietDelivers(y, Step(y, ServerIo(reply)));
    }
  }

  lemma ServerQuiet(y: System, reply: Reply)
    requires Enabled(y, ServerIo(reply)) && !reply.Wrote?
    requires !Feed(y.server, reply).pc.WritingExtension? && !Feed(y.server, reply).pc.AwaitingAction?
    requires ServerOk(Step(y, ServerIo(reply)))
    ensures Quiet(y, Step(y, ServerIo(reply)))
  {
  }

  /** The client alone: it has in hand what it read last, and stores the events it reads. */
  lemma ReadTakes(config: Config, k: Client, c: Conn, f: Frame)
    requires Reading(k) && k.decision.None? && Taken(k, c) && Accepted(config, k, ScanAll(c.received), f)
    ensures var after := Receive(k, Incoming(f));
            && Taken(after, c.(received := c.received + [f]))
            && after.lifecycle == k.lifecycle + if f.LifecycleFrame? then [f.event] else []
  {
    if f.ExtensionFrame? {
      ExtensionTaken(k, c, f);
    } else if f.ObservationFrame? {
      ObservationTaken(k, c, f);
    } else {
      NothingTaken(k, f);
    }
  }

  lemma ExtensionTaken(k: Client, c: Conn, f: Frame)
    requires Reading(k) && k.decision.None? && Taken(k, c) && f.ExtensionFrame?
    ensures Taken(Receive(k, Incoming(f)), c.(received := c.received + [f]))
    ensures Receive(k, Incoming(f)).lifecycle == k.lifecycle
  {
    ExtensionHeard(k, f);
    if k.pc.AwaitingExtension? { EndsPair(c.received, k.pc.observation, f); }
  }

  lemma ExtensionHeard(k: Client, f: Frame)
    requires Reading(k) && k.decision.None? && f.ExtensionFrame?
    ensures var after := Receive(k, Incoming(f));
            && after.lifecycle == k.lifecycle && !after.pc.AwaitingExtension?
            && (after.decision.Some? ==>
                  && k.pc.AwaitingExtension? && after.decision.value == Decision(k.pc.observation, f.extension)
                  && f.step == k.pc.observation.step)
  {
  }

  lemma EndsPair(frames: seq<Frame>, o: Observation, f: Frame)
    requires EndsWith(frames, [ObservationFrame(o)]) && f.ExtensionFrame?
    ensures f.step == o.step ==> EndsWith(frames + [f], Pair(o, f.extension))
  {
    EndsAppend(frames, [ObservationFrame(o)], f);
  }

  lemma ObservationTaken(k: Client, c: Conn, f: Frame)
    requires Reading(k) && k.decision.None? && f.ObservationFrame?
    requires Receive(k, Incoming(f)).decision.None?
    ensures Taken(Receive(k, Incoming(f)), c.(received := c.received + [f]))
    ensures Receive(k, Incoming(f)).lifecycle == k.lifecycle
  {
    ObservationHeard(k, f);
    EndsLast(c.received, f);
  }

  lemma ObservationHeard(k: Client, f: Frame)
    requires Reading(k) && f.ObservationFrame?
    ensures var after := Receive(k, Incoming(f));
            && after.lifecycle == k.lifecycle
            && (after.pc.AwaitingExtension? ==> f == ObservationFrame(after.pc.observation))
  {
  }

  lemma EndsLast(frames: seq<Frame>, f: Frame)
    ensures EndsWith(frames + [f], [f])
  {
  }

  lemma NothingTaken(k: Client, f: Frame)
    requires Reading(k) && k.decision.None? && !f.ExtensionFrame? && !f.ObservationFrame?
    requires Receive(k, Incoming(f)).pc != Ready(Some(ProtocolError))
    ensures Receive(k, Incoming(f)).decision.None? && !Receive(k, Incoming(f)).pc.AwaitingExtension?
    ensures Receive(k, Incoming(f)).lifecycle == k.lifecycle + if f.LifecycleFrame? then [f.event] else []
  {
  }

  lemma ReadDelivers(y: System)
    requires Inv(y) && Delivered(y) && Enabled(y, ClientRead)
    ensures Delivered(Step(y, ClientRead))
  {
    var i := y.client.stream.value;
    NextFrameAccepted(y);
    ReadTakes(y.server.config, y.client, y.conns[i], y.conns[i].toClient[0]);
    ReadLeaves(y);
    ReadKeepsDelivery(y, Step(y, ClientRead), i);
  }

  lemma ReadKeepsDelivery(y: System, z: System, i: nat)
    requires Delivered(y) && i + 1 == |y.conns| == |z.conns| && y.conns[i].toClient != []
    requires z.server == y.server && z.conns == y.conns[i := z.conns[i]]
    requires z.conns[i].sent == y.conns[i].sent && (z.conns[i].alive ==> y.conns[i].alive)
    requires z.conns[i].received == y.conns[i].received + [y.conns[i].toClient[0]]
    requires z.client.stream.Some? ==> z.client.stream.value == i && Taken(z.client, z.conns[i])
    requires z.client.lifecycle ==
             y.client.lifecycle + if y.conns[i].toClient[0].LifecycleFrame? then [y.conns[i].toClient[0].event] else []
    ensures Delivered(z)
  {
    HeardNext(y.conns, z.conns[i], y.conns[i].toClient[0]);
  }

  /** Reading changes nothing of what was written. */
  lemma ReadLeaves(y: System)
    requires Enabled(y, ClientRead)
    ensures var z, i := Step(y, ClientRead), y.client.stream.value;
            && z.server == y.server && |z.conns| == |y.conns|
            && z.conns == y.conns[i := z.conns[i]]
            && z.conns[i].sent == y.conns[i].sent && (z.conns[i].alive ==> y.conns[i].alive)
            && z.conns[i].received == y.conns[i].received + [y.conns[i].toClient[0]]
            && z.client == Receive(y.client, Incoming(y.conns[i].toClient[0]))
            && (z.client.stream.Some? ==> z.client.stream == y.client.stream)
  {
  }

  lemma ReconnectDelivers(y: System, reached: bool, delivered: bool)
    requires Inv(y) && Delivered(y) && Enabled(y, ClientReconnect(reached, delivered))
    ensures Delivered(Step(y, ClientReconnect(reached, delivered)))
  {
    var closed, z := CloseStream(y), Step(y, ClientReconnect(reached, delivered));
    ClosesQuietly(y);
    QuietDelivers(y, closed);
    if reached {
      Joins(closed, z, z.conns[|closed.conns|]);
    } else {
      QuietDelivers(closed, z);
    }
  }

  lemma ClosesQuietly(y: System)
    requires y.client.stream.Some? ==> y.client.stream.value < |y.conns|
    ensures Quiet(y, CloseStream(y)) && CloseStream(y).client.stream.None?
  {
  }

  /** A new connection, on which nothing has been heard. */
  lemma Joins(y: System, z: System, c: Conn)
    requires Delivered(y) && z.server == y.server && z.conns == y.conns + [c] && c.received == []
    requires z.client.lifecycle == y.client.lifecycle && z.client.decision.None? && !z.client.pc.AwaitingExtension?
    requires z.client.stream.Some? ==> z.client.stream.value == |y.conns|
    ensures Delivered(z)
  {
    HeardMore(y.conns, c);
  }

  lemma MoveDelivers(y: System, move: Move)
    requires Inv(y) && Delivered(y) && Enabled(y, move)
    ensures Delivered(Step(y, move))
  {
    match move
    case ServerIo(reply) => ServerDelivers(y, reply);
    case ClientRead => ReadDelivers(y);
    case ClientReconnect(reached, delivered) => ReconnectDelivers(y, reached, delivered);
    case _ => OtherDelivers(y, move);
  }

  lemma OtherDelivers(y: System, move: Move)
    requires Inv(y) && Delivered(y) && Enabled(y, move)
    requires !move.ServerIo? && !move.ClientRead? && !move.ClientReconnect?
    ensures Delivered(Step(y, move))
  {
    OtherQuiet(y, move);
    QuietDelivers(y, Step(y, move));
  }

  lemma OtherQuiet(y: System, move: Move)
    requires ServerOk(y) && ClientOk(y) && Enabled(y, move)
    requires !move.ServerIo? && !move.ClientRead? && !move.ClientReconnect?
    ensures Quiet(y, Step(y, move))
  {
    match move
    case ClientSend(action, delivered, failed) => SendQuiet(y, action, delivered, failed);
    case CallExchange(_) => CallQuiet(y, move);
    case CallEmit(_, _, _) => CallQuiet(y, move);
    case ClientClose => ClosesQuietly(y);
    case _ =>
  }

  lemma SendQuiet(y: System, action: ActionTensor, delivered: bool, failed: bool)
    requires ClientOk(y) && Enabled(y, ClientSend(action, delivered, failed))
    ensures Quiet(y, Step(y, ClientSend(action, delivered, failed)))
  {
  }

  lemma CallQuiet(y: System, move: Move)
    requires ServerOk(y) && Enabled(y, move) && (move.CallExchange? || move.CallEmit?)
    ensures Quiet(y, Step(y, move))
  {
  }

  lemma {:induction false} RunDelivers(y: System, moves: seq<Move>)
    requires Inv(y) && Delivered(y) && RunnableFrom(y, moves)
    ensures Delivered(RunFrom(y, moves))
    decreases |moves|
  {
    if moves != [] {
      MoveDelivers(y, moves[0]);
      StepInv(y, moves[0]);
      RunDelivers(Step(y, moves[0]), moves[1..]);
    }
  }

  lemma InitialDelivered(config: Config)
    ensures Delivered(Initial(config))
  {
    HeardMore([], NEW_CONN);
    assert [] + [NEW_CONN] == [NEW_CONN];
  }

  lemma ReachableDelivered(config: Config, y: System)
    requires Reachable(config, y)
    ensures Inv(y) && Delivered(y)
  {
    ReachableInv(config, y);
    InitialInv(config);
    InitialDelivered(config);
    var moves :| RunnableFrom(Initial(config), moves) && RunFrom(Initial(config), moves) == y;
    RunDelivers(Initial(config), moves);
  }

  // ---------------------------------------------------------------- extensions, counted

  function Extensions(frames: seq<Frame>): nat {
    if frames == [] then 0
    else Extensions(frames[..|frames| - 1]) + if frames[|frames| - 1].ExtensionFrame? then 1 else 0
  }

  lemma {:induction false} ExtensionsConcat(a: seq<Frame>, b: seq<Frame>)
    ensures Extensions(a + b) == Extensions(a) + Extensions(b)
    decreases |b|
  {
    if b == [] {
      assert a + b == a;
    } else {
      assert (a + b)[..|a + b| - 1] == a + b[..|b| - 1];
      ExtensionsConcat(a, b[..|b| - 1]);
    }
  }

  /** In a well-formed stream every observation but an unfinished one has its extension. */
  lemma {:induction false} ExtensionsScan(frames: seq<Frame>)
    requires ScanAll(frames).phase != Broken
    ensures Extensions(frames) == ScanAll(frames).observations - if ScanAll(frames).phase.ExtensionDue? then 1 else 0
  {
    if frames != [] { ExtensionsScan(frames[..|frames| - 1]); }
  }

  lemma ExtensionAt(frames: seq<Frame>, i: nat)
    requires i < |frames| && frames[i].ExtensionFrame?
    ensures Extensions(frames) >= 1
    ensures Extensions(frames) == 1 && frames[|frames| - 1].ExtensionFrame? ==> i == |frames| - 1
  {
    var last := |frames| - 1;
    assert frames == frames[..i + 1] + frames[i + 1..] && frames[..i + 1][..i] == frames[..i];
    ExtensionsConcat(frames[..i + 1], frames[i + 1..]);
    if i < last && frames[last].ExtensionFrame? {
      assert frames[i + 1..][last - i - 1] == frames[last];
    }
  }

  /** What the client has of the stream, against what the server wrote. */
  lemma Counts(s: Server, k: Client, c: Conn)
    requires ConnOk(s.config, c) && ClientInStep(k, c) && c.alive
    ensures ScanAll(c.sent).phase != Broken && ScanAll(c.received).phase != Broken
    ensures Extensions(c.sent) == Extensions(c.received) + Extensions(c.toClient)
    ensures Extensions(c.sent) == ScanAll(c.sent).observations - if ScanAll(c.sent).phase.ExtensionDue? then 1 else 0
    ensures Extensions(c.received) >= c.answered
    ensures k.decision.Some? && k.pc.Ready? ==> Extensions(c.received) == c.replied + 1
  {
    ScanPrefix(c.received, c.sent);
    ExtensionsConcat(c.received, c.toClient);
    ExtensionsScan(c.sent);
    ExtensionsScan(c.received);
  }

  /** One more extension than actions read: the server has written all of an exchange and waits. */
  lemma Waits(s: Server, log: seq<SentAction>, results: seq<Agreement>, c: Conn)
    requires CurrentOk(s, log, results, c) && ConnOk(s.config, c) && c.alive && Written(s, c)
    requires Extensions(c.sent) == ScanAll(c.sent).observations - if ScanAll(c.sent).phase.ExtensionDue? then 1 else 0
    requires Extensions(c.sent) > c.answered
    ensures Extensions(c.sent) == c.answered + 1
    ensures s.pc.AwaitingAction? && EndsWith(c.sent, Pair(s.pc.x.observation, s.pc.x.extension))
  {
  }

  /** An extension on its way is the last frame written. */
  lemma TransitExtension(s: Server, k: Client, log: seq<SentAction>, results: seq<Agreement>, c: Conn, i: nat)
    requires CurrentOk(s, log, results, c) && ConnOk(s.config, c) && ClientInStep(k, c) && c.alive && Written(s, c)
    requires i < |c.toClient| && c.toClient[i].ExtensionFrame?
    ensures s.pc.AwaitingAction? && c.toClient[i] == ExtensionFrame(s.pc.x.observation.step, s.pc.x.extension)
  {
    Counts(s, k, c);
    ExtensionAt(c.toClient, i);
    Waits(s, log, results, c);
    var last := |c.toClient| - 1;
    assert c.toClient[last] == c.sent[|c.sent| - 1] == c.sent[|c.sent| - 2..][1];
  }

  lemma ExtensionLast(received: seq<Frame>, toClient: seq<Frame>, sent: seq<Frame>)
    requires received + toClient == sent && sent != [] && sent[|sent| - 1].ExtensionFrame?
    ensures toClient != [] ==> Extensions(toClient) >= 1
  {
    if toClient != [] { assert toClient[|toClient| - 1] == sent[|sent| - 1]; }
  }

  /** A decision in hand is all that was written. */
  lemma HandExtension(s: Server, k: Client, log: seq<SentAction>, results: seq<Agreement>, c: Conn)
    requires CurrentOk(s, log, results, c) && ConnOk(s.config, c) && ClientInStep(k, c) && c.alive && Written(s, c)
    requires Taken(k, c) && k.decision.Some? && k.pc.Ready?
    ensures s.pc.AwaitingAction? && k.decision == Some(Decision(s.pc.x.observation, s.pc.x.extension))
  {
    Counts(s, k, c);
    Waits(s, log, results, c);
    var tail := c.sent[|c.sent| - 2..];
    assert tail[1] == c.sent[|c.sent| - 1];
    ExtensionLast(c.received, c.toClient, c.sent);
    assert c.received == c.sent;
    assert tail[0] == ObservationFrame(s.pc.x.observation);
  }

  // ---------------------------------------------------------------- what gets through

  /**
   On the server's live connection, an extension on its way to the client and the decision in the
   client's hand, its observation and its extension together, are those of the exchange that is
   waiting for an action.
   */
  lemma DecisionIsExchange(config: Config, y: System)
    requires Reachable(config, y) && Current(y.server).Some?
    ensures Current(y.server).value < |y.conns|
    ensures var s, c := y.server, y.conns[Current(y.server).value];
            c.alive ==>
              && (forall f | f in c.toClient && f.ExtensionFrame? ::
                    s.pc.AwaitingAction? && f == ExtensionFrame(s.pc.x.observation.step, s.pc.x.extension))
              && (y.client.decision.Some? ==>
                    s.pc.AwaitingAction? && y.client.decision == Some(Decision(s.pc.x.observation, s.pc.x.extension)))
  {
    ReachableDelivered(config, y);
    var i := Current(y.server).value;
    var c := y.conns[i];
    if c.alive {
      LiveIsLatest(y, i);
      forall f | f in c.toClient && f.ExtensionFrame?
        ensures y.server.pc.AwaitingAction?
        ensures f == ExtensionFrame(y.server.pc.x.observation.step, y.server.pc.x.extension)
      {
        var k :| 0 <= k < |c.toClient| && c.toClient[k] == f;
        TransitExtension(y.server, y.client, y.log, y.results, c, k);
      }
      if y.client.decision.Some? { HandExtension(y.server, y.client, y.log, y.results, c); }
    }
  }

  /**
   The client's record of lifecycle events is exactly what it received over all its connections,
   in order: none is dropped, invented or stored twice.
   */
  lemma StoredExactly(config: Config, y: System)
    requires Reachable(config, y)
    ensures y.client.lifecycle == Heard(y.conns)
    ensures forall i | 0 <= i < |y.conns| :: y.conns[i].received <= y.conns[i].sent
  {
    ReachableDelivered(config, y);
    forall i | 0 <= i < |y.conns| ensures y.conns[i].received <= y.conns[i].sent {
      ObservationsBound(y.server.config, y.conns[i]);
    }
  }
}
