/** The invariant of `LockstepSystem` holds in every run; the promises of the protocol follow. */
module LockstepSafety {
  import opened Wrappers
  import opened Negotiation
  import opened Actions
  import opened LockstepFrames
  import opened LockstepServer
  import opened LockstepClient
  import opened LockstepSystem

  lemma {:induction false} EventsConcat(a: seq<Frame>, b: seq<Frame>)
    ensures Events(a + b) == Events(a) + Events(b)
    decreases |b|
  {
    if b == [] {
      assert a + b == a;
    } else {
      var front := b[..|b| - 1];
      assert (a + b)[..|a + b| - 1] == a + front;
      EventsConcat(a, front);
    }
  }

  /** Later events keep their order behind everything already written. */
  lemma IncreasingAppend(story: seq<LifecycleEvent>, written: nat, event: LifecycleEvent)
    requires Increasing(story) && (forall e | e in story :: e.sequence <= written)
    requires written <= U64_MAX && Precedes(written, event.sequence)
    ensures Increasing(story + [event])
    ensures forall e | e in story + [event] :: e.sequence <= event.sequence
  {
  }

  lemma InitialInv(config: Config)
    requires Typed(config) && Announceable(config)
    ensures Inv(Initial(config))
  {
  }

  // ---------------------------------------------------------------- writes

  lemma WriteKeepsConn(config: Config, c: Conn, frame: Frame)
    requires ConnOk(config, c) && GoodFrame(config, frame)
    requires c.alive ==>
               var scan := ScanFrame(ScanAll(c.sent), frame);
               scan.phase != Broken && scan.observations <= c.answered + 1
    ensures ConnOk(config, WriteTo(c, frame))
  {
  }

  lemma AnnouncedGood(config: Config, tick: nat)
    requires Typed(config) && Announceable(config) && tick <= U64_MAX
    ensures GoodMetadata(config, MetadataOf(config, tick))
  {
  }

  /** The transport alone: its fields stay sane whatever the network answers. */
  lemma FeedSane(s: Server, reply: Reply)
    requires ServerSane(s) && Fits(Wants(s), reply)
    ensures ServerSane(Feed(s, reply))
  {
  }

  lemma PostponeQueue(s: Server, written: nat, tick: nat, kind: LifecycleKind, related: Option<nat>)
    requires written <= s.sequence <= U64_MAX && Increasing(s.pending)
    requires forall e | e in s.pending :: ValidEvent(e) && Precedes(written, e.sequence) && e.sequence <= s.sequence
    requires tick <= U64_MAX && (related.Some? ==> related.value <= U64_MAX)
    ensures var t := Postpone(s, tick, kind, related);
            && written <= t.sequence <= U64_MAX && Increasing(t.pending)
            && (forall e | e in t.pending :: ValidEvent(e) && Precedes(written, e.sequence) && e.sequence <= t.sequence)
  {
  }

  /** The transport alone: whatever the network answers, the events it has yet to write stay in order. */
  lemma FeedQueue(s: Server, written: nat, reply: Reply)
    requires ServerSane(s) && Fits(Wants(s), reply) && QueueOk(s, written)
    ensures QueueOk(Feed(s, reply),
                    if reply.Wrote? && Wants(s).frame.LifecycleFrame? then Wants(s).frame.event.sequence else written)
  {
  }

  /** The grammar goes on where the automaton does. */
  lemma WritePhase(s: Server, log: seq<SentAction>, results: seq<Agreement>, c: Conn)
    requires ServerSane(s) && Wants(s).Write? && CurrentOk(s, log, results, c) && c.alive
    ensures var scan, after := ScanFrame(ScanAll(c.sent), Wants(s).frame), Feed(s, Wrote);
            && PhaseAt(after.pc, scan.phase) && scan.phase != Broken && scan.observations <= c.answered + 1
            && (if Outstanding(after).Some? then scan.observations == c.answered + 1 && scan.last == Outstanding(after)
                else scan.observations == c.answered)
  {
  }

  lemma WriteKeepsCurrent(s: Server, log: seq<SentAction>, results: seq<Agreement>, c: Conn)
    requires ServerSane(s) && Wants(s).Write? && CurrentOk(s, log, results, c)
    ensures CurrentOk(Feed(s, Wrote), log, results, WriteTo(c, Wants(s).frame))
    ensures c.alive ==> ScanFrame(ScanAll(c.sent), Wants(s).frame).phase != Broken
    ensures c.alive ==> ScanFrame(ScanAll(c.sent), Wants(s).frame).observations <= c.answered + 1
    ensures Current(s) == Current(Feed(s, Wrote)) == Some(Wants(s).conn)
  {
    ScanAppend(c.sent, Wants(s).frame);
    if c.alive { WritePhase(s, log, results, c); }
  }

  lemma FailureKeepsCurrent(s: Server, log: seq<SentAction>, results: seq<Agreement>, c: Conn, fault: Fault)
    requires ServerSane(s) && CurrentOk(s, log, results, c) && !c.alive && !fault.InvalidData?
    requires Wants(s).Write? || Wants(s).Read?
    ensures CurrentOk(Feed(s, Failed(fault)), log, results, c.(toServer := []))
    ensures Current(Feed(s, Failed(fault))) in {None, Current(s)}
  {
  }

  /** What the server can read from this client: the resume request, or the owed action. */
  lemma ArrivalKeepsCurrent(s: Server, log: seq<SentAction>, results: seq<Agreement>, c: Conn)
    requires ServerSane(s) && CurrentOk(s, log, results, c) && Wants(s).Read? && c.toServer != []
    requires AgreementOk(log, results) && c.answered <= c.replied
    ensures var t := Feed(s, Arrived(c.toServer[0]));
            var read := c.(toServer := c.toServer[1..],
                           answered := c.answered + if c.toServer[0].ActionFrame? then 1 else 0);
            var more := Record(results, s, Arrived(c.toServer[0]), t);
            && (t.pc.Greeting? || t.pc == Idle(Some(Completed(Sanitize(c.toServer[0].action)))))
            && Current(t) == Current(s)
            && CurrentOk(t, log, more, read)
            && AgreementOk(log, more)
            && read.answered <= c.replied
  {
  }

  lemma WriteFrameGood(s: Server, written: nat)
    requires Typed(s.config) && Announceable(s.config)
    requires ServerSane(s) && Wants(s).Write? && QueueOk(s, written)
    ensures GoodFrame(s.config, Wants(s).frame)
    ensures Wants(s).frame.LifecycleFrame? ==> Waiting(s) != [] && Waiting(s)[0] == Wants(s).frame.event
  {
  }

  /** The client's standing does not depend on what the server adds to a live stream. */
  lemma ServerSideClient(y: System, z: System, i: nat, c: Conn)
    requires ClientOk(y) && i < |y.conns|
    requires z.client == y.client && z.conns == y.conns[i := c] && z.server.config == y.server.config
    requires c.received == y.conns[i].received && c.replied == y.conns[i].replied && c.alive == y.conns[i].alive
    requires c.toClient != [] ==> c.alive || y.conns[i].toClient != []
    ensures ClientOk(z)
  {
  }

  lemma ServerSideServer(y: System, z: System, i: nat, c: Conn)
    requires ServerOk(y) && i < |y.conns| && i + 1 == y.accepted && z.accepted == y.accepted
    requires z.conns == y.conns[i := c] && z.server.config == y.server.config && ServerSane(z.server)
    requires Current(z.server).Some? ==> Current(z.server).value == i && CurrentOk(z.server, z.log, z.results, c)
    ensures ServerOk(z)
  {
  }

  /** A server operation touches the server's side of its own connection and nothing else. */
  lemma ServerSide(y: System, z: System, i: nat, c: Conn)
    requires Inv(y) && i < |y.conns| && i + 1 == y.accepted
    requires z == System(z.server, y.client, y.conns[i := c], y.accepted, y.log, z.results, z.written)
    requires z.server.config == y.server.config && ServerSane(z.server)
    requires QueueOk(z.server, z.written) && AgreementOk(z.log, z.results) && StoryOk(Story(z), z.written)
    requires Current(z.server).Some? ==> Current(z.server).value == i && CurrentOk(z.server, z.log, z.results, c)
    requires ConnOk(z.server.config, c)
    requires c.received == y.conns[i].received && c.replied == y.conns[i].replied && c.alive == y.conns[i].alive
    requires c.toClient != [] ==> c.alive || y.conns[i].toClient != []
    ensures Inv(z)
  {
    ServerSideClient(y, z, i, c);
    ServerSideServer(y, z, i, c);
  }

  lemma WriteStory(stored: seq<LifecycleEvent>, c: Conn, frame: Frame, written: nat)
    requires StoryOk(stored + Events(c.toClient), written) && written <= U64_MAX
    requires frame.LifecycleFrame? ==> Precedes(written, frame.event.sequence)
    ensures StoryOk(stored + Events(WriteTo(c, frame).toClient),
                    if frame.LifecycleFrame? then frame.event.sequence else written)
  {
    EventsConcat(c.toClient, [frame]);
    assert [frame][..0] == [];
    if frame.LifecycleFrame? {
      IncreasingAppend(stored + Events(c.toClient), written, frame.event);
      assert stored + Events(c.toClient + [frame]) == stored + Events(c.toClient) + [frame.event];
    } else {
      assert Events(c.toClient + [frame]) == Events(c.toClient);
    }
  }

  /** One successful write, seen from the server and its connection alone. */
  lemma WriteLocally(s: Server, log: seq<SentAction>, results: seq<Agreement>, c: Conn, written: nat)
    requires Typed(s.config) && Announceable(s.config) && Wired(s) && Wants(s).Write?
    requires ServerSane(s) && QueueOk(s, written) && CurrentOk(s, log, results, c) && ConnOk(s.config, c)
    ensures var frame := Wants(s).frame;
            var t := Feed(s, Wrote);
            && ServerSane(t)
            && QueueOk(t, if frame.LifecycleFrame? then frame.event.sequence else written)
            && (frame.LifecycleFrame? ==> Precedes(written, frame.event.sequence))
            && Current(t) == Current(s) == Some(Wants(s).conn)
            && CurrentOk(t, log, results, WriteTo(c, frame)) && ConnOk(s.config, WriteTo(c, frame))
  {
    FeedQueue(s, written, Wrote);
    FeedSane(s, Wrote);
    WriteFrameGood(s, written);
    WriteKeepsCurrent(s, log, results, c);
    WriteKeepsConn(s.config, c, Wants(s).frame);
  }

  lemma WriteKeepsStory(y: System)
    requires Inv(y) && Wants(y.server).Write? && Enabled(y, ServerIo(Wrote))
    requires Wants(y.server).frame.LifecycleFrame? ==> Precedes(y.written, Wants(y.server).frame.event.sequence)
    ensures var z := Step(y, ServerIo(Wrote)); StoryOk(Story(z), z.written)
  {
    var i := Wants(y.server).conn;
    if y.client.stream == Some(i) {
      WriteStory(y.client.lifecycle, y.conns[i], Wants(y.server).frame, y.written);
    } else {
      assert Story(Step(y, ServerIo(Wrote))) == Story(y);
    }
  }

  lemma WriteIo(y: System)
    requires Inv(y) && Wants(y.server).Write? && Enabled(y, ServerIo(Wrote))
    ensures Inv(Step(y, ServerIo(Wrote)))
  {
    var i := Current(y.server).value;
    WriteLocally(y.server, y.log, y.results, y.conns[i], y.written);
    WriteKeepsStory(y);
    ServerSide(y, Step(y, ServerIo(Wrote)), i, WriteTo(y.conns[i], Wants(y.server).frame));
  }

  // ---------------------------------------------------------------- failures, reads, accepts

  lemma FailedLocally(s: Server, log: seq<SentAction>, results: seq<Agreement>, c: Conn, fault: Fault, written: nat)
    requires ServerSane(s) && (Wants(s).Write? || Wants(s).Read?) && !fault.InvalidData?
    requires QueueOk(s, written) && CurrentOk(s, log, results, c) && ConnOk(s.config, c) && !c.alive
    ensures var t := Feed(s, Failed(fault));
            && ServerSane(t) && QueueOk(t, written)
            && (Current(t).Some? ==> Current(t) == Current(s))
            && CurrentOk(t, log, results, c.(toServer := [])) && ConnOk(s.config, c.(toServer := []))
            && Record(results, s, Failed(fault), t) == results
  {
    FeedSane(s, Failed(fault));
    FeedQueue(s, written, Failed(fault));
    FailureKeepsCurrent(s, log, results, c, fault);
  }

  /** What the server does to itself alone concerns nobody else. */
  lemma ServerAlone(y: System, s: Server, accepted: nat)
    requires Inv(y) && ServerOk(y.(server := s, accepted := accepted)) && QueueOk(s, y.written)
    requires s.config == y.server.config
    ensures Inv(y.(server := s, accepted := accepted))
  {
    assert Story(y.(server := s, accepted := accepted)) == Story(y);
  }

  lemma FailedAccept(y: System, reply: Reply)
    requires Inv(y) && Enabled(y, ServerIo(reply)) && reply.Failed? && Wants(y.server).Accept?
    ensures Inv(Step(y, ServerIo(reply)))
  {
    FeedQueue(y.server, y.written, reply);
    AcceptServer(y, reply);
    ServerAlone(y, Feed(y.server, reply), y.accepted);
  }

  /** Accepting a connection, or failing to. */
  lemma AcceptServer(y: System, reply: Reply)
    requires ServerOk(y) && Enabled(y, ServerIo(reply)) && Wants(y.server).Accept?
    requires forall i | 0 <= i < |y.conns| :: ConnOk(y.server.config, y.conns[i])
    ensures var accepted := if reply.Connected? then reply.conn + 1 else y.accepted;
            && ServerOk(y.(server := Feed(y.server, reply), accepted := accepted))
            && Step(y, ServerIo(reply)) == y.(server := Feed(y.server, reply), accepted := accepted)
  {
  }

  lemma FailedIo(y: System, reply: Reply)
    requires Inv(y) && Enabled(y, ServerIo(reply)) && reply.Failed?
    ensures Inv(Step(y, ServerIo(reply)))
  {
    if Wants(y.server).Accept? { FailedAccept(y, reply); } else { FailedTalk(y, reply); }
  }

  lemma FailedTalk(y: System, reply: Reply)
    requires Inv(y) && Enabled(y, ServerIo(reply)) && reply.Failed? && !Wants(y.server).Accept?
    ensures Inv(Step(y, ServerIo(reply)))
  {
    var i := Current(y.server).value;
    FailedLocally(y.server, y.log, y.results, y.conns[i], reply.fault, y.written);
    FailedStep(y, reply);
    FailedSide(y, Feed(y.server, reply), i, Step(y, ServerIo(reply)));
  }

  lemma FailedSide(y: System, t: Server, i: nat, z: System)
    requires Inv(y) && i < |y.conns| && i + 1 == y.accepted && ServerSane(t) && t.config == y.server.config
    requires z == System(t, y.client, y.conns[i := y.conns[i].(toServer := [])],
                         y.accepted, y.log, y.results, y.written)
    requires QueueOk(t, y.written) && Story(z) == Story(y)
    requires Current(t).Some? ==> Current(t).value == i
    requires CurrentOk(t, y.log, y.results, y.conns[i].(toServer := []))
    requires ConnOk(t.config, y.conns[i].(toServer := []))
    ensures Inv(z)
  {
    ServerSide(y, z, i, y.conns[i].(toServer := []));
  }

  lemma FailedStep(y: System, reply: Reply)
    requires ServerOk(y) && Enabled(y, ServerIo(reply)) && reply.Failed? && !Wants(y.server).Accept?
    requires Record(y.results, y.server, reply, Feed(y.server, reply)) == y.results
    ensures var z, i := Step(y, ServerIo(reply)), Current(y.server).value;
            && i < |y.conns| && Story(z) == Story(y)
            && z == System(Feed(y.server, reply), y.client, y.conns[i := y.conns[i].(toServer := [])],
                           y.accepted, y.log, y.results, y.written)
  {
  }

  lemma AcceptedIo(y: System, reply: Reply)
    requires Inv(y) && Enabled(y, ServerIo(reply)) && reply.Connected?
    ensures Inv(Step(y, ServerIo(reply)))
  {
    FeedQueue(y.server, y.written, reply);
    AcceptServer(y, reply);
    ServerAlone(y, Feed(y.server, reply), reply.conn + 1);
  }

  /** What reading a frame changes. */
  lemma ArrivedStep(y: System, reply: Reply)
    requires ServerOk(y) && Enabled(y, ServerIo(reply)) && reply.Arrived?
    ensures Current(y.server).Some?
    ensures var s, i := y.server, Current(y.server).value;
            var c, z := y.conns[i], Step(y, ServerIo(reply));
            && i + 1 == y.accepted && c.toServer != [] && reply.frame == c.toServer[0]
            && Story(z) == Story(y)
            && z == System(Feed(s, reply), y.client,
                           y.conns[i := c.(toServer := c.toServer[1..],
                                           answered := c.answered + if reply.frame.ActionFrame? then 1 else 0)],
                           y.accepted, y.log, Record(y.results, s, reply, Feed(s, reply)), y.written)
  {
  }

  lemma ArrivedIo(y: System, reply: Reply)
    requires Inv(y) && Enabled(y, ServerIo(reply)) && reply.Arrived?
    ensures Inv(Step(y, ServerIo(reply)))
  {
    var s, z, i := y.server, Step(y, ServerIo(reply)), Current(y.server).value;
    ArrivedStep(y, reply);
    FeedSane(s, reply);
    FeedQueue(s, y.written, reply);
    ArrivalKeepsCurrent(s, y.log, y.results, y.conns[i]);
    ServerSide(y, z, i, z.conns[i]);
  }

  // ---------------------------------------------------------------- calls of the server

  lemma CalledServer(y: System, s: Server)
    requires Inv(y) && AtRest(y.server)
    requires s.config == y.server.config && ServerSane(s) && QueueOk(s, y.written)
    requires s.stream == y.server.stream
    requires s.pc.Idle? || s.pc.Accepting? || s.pc.WritingObservation? || s.pc.Emitting?
    ensures Inv(y.(server := s))
  {
    CalledCurrent(y, s);
    ServerAlone(y, s, y.accepted);
  }

  lemma CalledCurrent(y: System, s: Server)
    requires ServerOk(y) && AtRest(y.server) && ServerSane(s)
    requires s.config == y.server.config && s.stream == y.server.stream
    requires s.pc.Idle? || s.pc.Accepting? || s.pc.WritingObservation? || s.pc.Emitting?
    ensures ServerOk(y.(server := s))
  {
  }

  lemma CallMove(y: System, move: Move)
    requires Inv(y) && Enabled(y, move) && (move.CallExchange? || move.CallEmit?)
    ensures Inv(Step(y, move))
  {
    var s := y.server;
    match move
    case CallExchange(x) => CalledServer(y, BeginExchange(s, x));
    case CallEmit(tick, kind, related) =>
      if s.stream.None? { PostponeQueue(s, y.written, tick, kind, related); }
      CalledServer(y, BeginEmit(s, tick, kind, related));
  }

  // ---------------------------------------------------------------- moves of the client

  /** What the client does touches its own connection, the latest one, and its own record. */
  lemma ClientSide(y: System, z: System, i: nat, c: Conn)
    requires Inv(y) && i + 1 == |y.conns|
    requires z == System(y.server, z.client, y.conns[i := c], y.accepted, z.log, y.results, y.written)
    requires y.log <= z.log && forall k | |y.log| <= k < |z.log| :: Sendable(z.log[k].action)
    requires ConnOk(y.server.config, c) && ClientOk(z) && StoryOk(Story(z), z.written)
    requires c.sent == y.conns[i].sent && c.answered == y.conns[i].answered
    requires c.alive ==> y.conns[i].alive
    requires i >= y.accepted ==> Fresh(y.server.config, c)
    requires Current(y.server) == Some(i) ==> CurrentOk(y.server, z.log, z.results, c)
    ensures Inv(z)
  {
    ClientSideServer(y, z, i, c);
    LogGrows(y.log, z.log, y.results);
  }

  lemma LogGrows(log: seq<SentAction>, more: seq<SentAction>, results: seq<Agreement>)
    requires log <= more && AgreementOk(log, results)
    requires forall i | |log| <= i < |more| :: Sendable(more[i].action)
    ensures AgreementOk(more, results)
  {
  }

  lemma OwedStays(s: Server, log: seq<SentAction>, more: seq<SentAction>, results: seq<Agreement>, c: Conn)
    requires log <= more && CurrentOk(s, log, results, c)
    ensures CurrentOk(s, more, results, c)
  {
  }

  lemma ClientSideServer(y: System, z: System, i: nat, c: Conn)
    requires ServerOk(y) && i + 1 == |y.conns| && y.log <= z.log
    requires z == System(y.server, z.client, y.conns[i := c], y.accepted, z.log, y.results, y.written)
    requires i >= y.accepted ==> Fresh(y.server.config, c)
    requires Current(y.server) == Some(i) ==> CurrentOk(y.server, z.log, z.results, c)
    ensures ServerOk(z)
  {
    var s := y.server;
    if Current(s).Some? && Current(s).value != i {
      OwedStays(s, y.log, z.log, y.results, y.conns[Current(s).value]);
    }
  }

  lemma EventsPrefix(a: seq<Frame>, b: seq<Frame>)
    requires a <= b
    ensures Events(a) <= Events(b)
  {
    EventsConcat(a, b[|a|..]);
    assert a + b[|a|..] == b;
  }

  lemma StoryPrefix(story: seq<LifecycleEvent>, whole: seq<LifecycleEvent>, written: nat)
    requires story <= whole && StoryOk(whole, written)
    ensures StoryOk(story, written)
  {
  }

  lemma CutKeepsConn(config: Config, c: Conn, toClient: nat, toServer: nat)
    requires ConnOk(config, c) && toClient <= |c.toClient| && toServer <= |c.toServer|
    ensures ConnOk(config, Cut(c, toClient, toServer))
  {
  }

  lemma CutKeepsCurrent(s: Server, log: seq<SentAction>, results: seq<Agreement>, c: Conn, toClient: nat, toServer: nat)
    requires CurrentOk(s, log, results, c) && toClient <= |c.toClient| && toServer <= |c.toServer|
    ensures CurrentOk(s, log, results, Cut(c, toClient, toServer))
  {
  }

  lemma CutKeepsFresh(config: Config, c: Conn, toClient: nat, toServer: nat)
    requires toClient <= |c.toClient| && toServer <= |c.toServer|
    ensures Fresh(config, c) ==> Fresh(config, Cut(c, toClient, toServer))
    ensures |c.toServer| <= 1 && toServer > 0 ==> Cut(c, toClient, toServer).toServer == c.toServer
    ensures c.toServer == [] ==> Cut(c, toClient, toServer).toServer == []
  {
  }

  /** A broken connection, as the client sees it. */
  lemma BrokenClient(y: System, i: nat, c: Conn)
    requires ClientOk(y) && i < |y.conns| && !c.alive
    requires c == y.conns[i].(alive := false, toClient := c.toClient, toServer := c.toServer)
    requires c.toClient != [] ==> y.conns[i].toClient != []
    ensures ClientOk(y.(conns := y.conns[i := c]))
  {
    if y.client.stream == Some(i) {
      assert ClientInStep(y.client, c);
    }
  }

  lemma BrokenServer(y: System, i: nat, c: Conn)
    requires ServerOk(y) && i < |y.conns|
    requires i >= y.accepted ==> Fresh(y.server.config, c)
    requires Current(y.server) == Some(i) ==> CurrentOk(y.server, y.log, y.results, c)
    ensures ServerOk(y.(conns := y.conns[i := c]))
  {
  }

  lemma BrokenSide(y: System, i: nat, c: Conn)
    requires Inv(y) && i < |y.conns|
    requires ConnOk(y.server.config, c) && !c.alive
    requires c == y.conns[i].(alive := false, toClient := c.toClient, toServer := c.toServer)
    requires c.toClient != [] ==> y.conns[i].toClient != []
    requires i >= y.accepted ==> Fresh(y.server.config, c)
    requires Current(y.server) == Some(i) ==> CurrentOk(y.server, y.log, y.results, c)
    requires StoryOk(Story(y.(conns := y.conns[i := c])), y.written)
    ensures Inv(y.(conns := y.conns[i := c]))
  {
    BrokenClient(y, i, c);
    BrokenServer(y, i, c);
  }

  lemma BreakMove(y: System, move: Move)
    requires Inv(y) && Enabled(y, move) && move.Break?
    ensures Inv(Step(y, move))
  {
    var c := y.conns[move.conn];
    var d := Cut(c, move.toClient, move.toServer);
    CutKeepsConn(y.server.config, c, move.toClient, move.toServer);
    EventsPrefix(d.toClient, c.toClient);
    StoryPrefix(Story(y.(conns := y.conns[move.conn := d])), Story(y), y.written);
    if Current(y.server) == Some(move.conn) || move.conn >= y.accepted {
      CutKeepsFresh(y.server.config, c, move.toClient, move.toServer);
    }
    if Current(y.server) == Some(move.conn) {
      CutKeepsCurrent(y.server, y.log, y.results, c, move.toClient, move.toServer);
    }
    BrokenSide(y, move.conn, d);
  }

  lemma CloseConn(s: Server, log: seq<SentAction>, results: seq<Agreement>, c: Conn)
    ensures ConnOk(s.config, c) ==> ConnOk(s.config, c.(alive := false))
    ensures CurrentOk(s, log, results, c) ==> CurrentOk(s, log, results, c.(alive := false))
    ensures Fresh(s.config, c) ==> Fresh(s.config, c.(alive := false))
  {
  }

  lemma CloseClient(y: System)
    requires ClientOk(y) && y.client.pc.Ready?
    ensures ClientOk(CloseStream(y))
  {
  }

  lemma CloseKeeps(y: System)
    requires Inv(y) && y.client.pc.Ready?
    ensures Inv(CloseStream(y))
  {
    var z := CloseStream(y);
    StoryPrefix(Story(z), Story(y), y.written);
    CloseClient(y);
    if y.client.stream.Some? {
      var i := y.client.stream.value;
      CloseConn(y.server, y.log, y.results, y.conns[i]);
      ClientSide(y, z, i, y.conns[i].(alive := false));
    }
  }

  /** One more connection, on which nothing has been said yet. */
  lemma AddedServer(z: System, k: Client, d: Conn)
    requires ServerOk(z) && Fresh(z.server.config, d)
    ensures ServerOk(z.(client := k, conns := z.conns + [d]))
  {
  }

  lemma AddedConns(z: System, d: Conn)
    requires forall i | 0 <= i < |z.conns| :: ConnOk(z.server.config, z.conns[i])
    requires Fresh(z.server.config, d) && d.received == [] && d.toClient == [] && d.answered == 0
    ensures forall i | 0 <= i < |z.conns + [d]| :: ConnOk(z.server.config, (z.conns + [d])[i])
  {
    assert ConnOk(z.server.config, d);
  }

  lemma AddedStory(z: System, w: System)
    requires StoryOk(Story(z), z.written) && z.client.stream.None? && w.client.lifecycle == z.client.lifecycle
    requires w.client.stream.Some? && w.client.stream.value < |w.conns| ==>
               w.conns[w.client.stream.value].toClient == []
    ensures StoryOk(Story(w), z.written)
  {
    assert Story(w) == Story(z);
  }

  lemma AddedClient(z: System, k: Client, d: Conn)
    requires ClientOk(z) && z.client.stream.None? && k.decision.None? && k.metadata == z.client.metadata
    requires d.received == [] && d.replied == 0 && d.toClient == []
    requires k.stream.None? ==> k.pc.Ready? && !d.alive
    requires k.stream.Some? ==> k.stream.value == |z.conns|
    requires k.stream.Some? ==> k.pc == AwaitingMetadata(Some(CredentialsOf(MetadataOf(z.server.config, 0))))
    ensures ClientOk(z.(client := k, conns := z.conns + [d]))
  {
  }

  lemma Added(z: System, k: Client, d: Conn)
    requires Inv(z) && z.client.stream.None? && k.lifecycle == z.client.lifecycle
    requires ClientOk(z.(client := k, conns := z.conns + [d]))
    requires Fresh(z.server.config, d) && d.received == [] && d.toClient == [] && d.answered == 0
    requires k.stream.Some? ==> k.stream.value == |z.conns|
    ensures Inv(z.(client := k, conns := z.conns + [d]))
  {
    AddedServer(z, k, d);
    AddedConns(z, d);
    AddedStory(z, z.(client := k, conns := z.conns + [d]));
  }

  lemma GaveUp(z: System)
    requires Inv(z) && z.client.stream.None?
    ensures Inv(GiveUpOn(z))
  {
    assert Story(GiveUpOn(z)) == Story(z);
  }

  lemma ReconnectMove(y: System, reached: bool, delivered: bool)
    requires Inv(y) && Enabled(y, ClientReconnect(reached, delivered))
    ensures Inv(Step(y, ClientReconnect(reached, delivered)))
  {
    var z := CloseStream(y);
    CloseKeeps(y);
    if reached && delivered {
      ReconnectedMove(y);
    } else {
      GaveUp(z);
      if reached {
        var k, d := GiveUpOn(z).client, NEW_CONN.(alive := false);
        AddedClient(GiveUpOn(z), k, d);
        Added(GiveUpOn(z), k, d);
      }
    }
  }

  lemma ReconnectedMove(y: System)
    requires Inv(y) && Inv(CloseStream(y)) && y.client.metadata.Some?
    ensures Inv(Reconnected(CloseStream(y), CredentialsOf(y.client.metadata.value)))
  {
    var z, credentials := CloseStream(y), CredentialsOf(y.client.metadata.value);
    var w := Reconnected(z, credentials);
    AddedClient(z, w.client, w.conns[|z.conns|]);
    Added(z, w.client, w.conns[|z.conns|]);
  }

  /** A decision in hand on a live connection: the server waits on it, and nothing is in flight yet. */
  lemma DecisionInHand(s: Server, log: seq<SentAction>, results: seq<Agreement>, k: Client, c: Conn)
    requires CurrentOk(s, log, results, c) && ConnOk(s.config, c) && ClientInStep(k, c)
    requires c.alive && k.decision.Some?
    requires !s.pc.AwaitingResume?
    ensures c.toServer == [] && c.replied == c.answered
    ensures Outstanding(s) == Some(k.decision.value.observation)
  {
    ObservationsBound(s.config, c);
    ScanPrefix(c.received, c.sent);
  }

  function SendOver(c: Conn, o: Observation, action: ActionTensor, ticket: nat, delivered: bool, failed: bool): Conn {
    c.(alive := c.alive && !failed,
       replied := if delivered then c.replied + 1 else c.replied,
       toServer := if delivered then c.toServer + [ActionFrame(o.step, o.entity, action, ticket)] else c.toServer)
  }

  lemma NotResuming(y: System, c: Conn)
    requires CurrentOk(y.server, y.log, y.results, c) && ConnOk(y.server.config, c) && ClientInStep(y.client, c)
    requires c.alive && y.client.decision.Some?
    ensures !Fresh(y.server.config, c) && !y.server.pc.AwaitingResume?
  {
  }

  lemma SendKeepsConn(config: Config, k: Client, c: Conn, action: ActionTensor, ticket: nat, delivered: bool,
                      failed: bool)
    requires ConnOk(config, c) && ClientInStep(k, c) && k.decision.Some? && k.pc.Ready?
    requires (delivered ==> c.alive) && (!delivered && !failed ==> !c.alive)
    ensures ConnOk(config, SendOver(c, k.decision.value.observation, action, ticket, delivered, failed))
    ensures ClientInStep(if failed then k else k.(decision := None),
                         SendOver(c, k.decision.value.observation, action, ticket, delivered, failed))
  {
  }

  lemma SendKeepsCurrent(y: System, c: Conn, action: ActionTensor, failed: bool)
    requires AgreementOk(y.log, y.results)
    requires CurrentOk(y.server, y.log, y.results, c) && ConnOk(y.server.config, c) && ClientInStep(y.client, c)
    requires c.alive && y.client.decision.Some?
    ensures !Fresh(y.server.config, c)
    ensures var o := y.client.decision.value.observation;
            CurrentOk(y.server, y.log + [SentAction(o, action)], y.results,
                SendOver(c, o, action, |y.log|, true, failed))
  {
    NotResuming(y, c);
    DecisionInHand(y.server, y.log, y.results, y.client, c);
  }

  /** What sending an action, or failing to, changes. */
  lemma SendStep(y: System, action: ActionTensor, delivered: bool, failed: bool)
    requires ClientOk(y) && Enabled(y, ClientSend(action, delivered, failed))
    ensures var o, i, z := y.client.decision.value.observation, y.client.stream.value,
                           Step(y, ClientSend(action, delivered, failed));
            && z == System(y.server, if failed then y.client else y.client.(decision := None),
                           y.conns[i := SendOver(y.conns[i], o, action, |y.log|, delivered, failed)], y.accepted,
                           if delivered then y.log + [SentAction(o, action)] else y.log, y.results, y.written)
            && Story(z) == Story(y)
  {
  }

  lemma SendClient(y: System, k: Client, d: Conn, log: seq<SentAction>)
    requires ClientOk(y) && y.client.stream.Some? && y.client.pc.Ready?
    requires k == y.client || k == y.client.(decision := None)
    requires ClientInStep(k, d)
    ensures ClientOk(y.(client := k, conns := y.conns[y.client.stream.value := d], log := log))
  {
  }

  lemma SendMove(y: System, move: Move)
    requires Inv(y) && Enabled(y, move) && move.ClientSend?
    ensures Inv(Step(y, move))
  {
    var z := Step(y, move);
    var i := y.client.stream.value;
    var o := y.client.decision.value.observation;
    var d := SendOver(y.conns[i], o, move.action, |y.log|, move.delivered, move.failed);
    SendStep(y, move.action, move.delivered, move.failed);
    SendKeepsConn(y.server.config, y.client, y.conns[i], move.action, |y.log|, move.delivered, move.failed);
    SendClient(y, z.client, d, z.log);
    if move.delivered {
      ObservationsBound(y.server.config, y.conns[i]);
      if Current(y.server) == Some(i) { SendKeepsCurrent(y, y.conns[i], move.action, move.failed); }
    }
    ClientSide(y, z, i, d);
  }

  /** What the client does to itself alone concerns nobody else. */
  lemma ClientAlone(y: System, k: Client)
    requires Inv(y) && ClientOk(y.(client := k)) && k.lifecycle == y.client.lifecycle
    requires k.stream == y.client.stream || k.stream.None?
    ensures Inv(y.(client := k))
  {
    AloneStory(y, k);
  }

  lemma AloneStory(y: System, k: Client)
    requires StoryOk(Story(y), y.written) && k.lifecycle == y.client.lifecycle
    requires k.stream == y.client.stream || k.stream.None?
    ensures StoryOk(Story(y.(client := k)), y.written)
  {
    StoryPrefix(Story(y.(client := k)), Story(y), y.written);
  }

  lemma EofClient(y: System)
    requires ClientOk(y) && Enabled(y, ClientEof)
    ensures var k := Receive(y.client, Eof);
            ClientOk(y.(client := k)) && k.lifecycle == y.client.lifecycle
            && (k.stream == y.client.stream || k.stream.None?)
  {
  }

  lemma EofMove(y: System)
    requires Inv(y) && Enabled(y, ClientEof)
    ensures Inv(Step(y, ClientEof))
  {
    EofClient(y);
    ClientAlone(y, Receive(y.client, Eof));
  }

  lemma AskClient(y: System)
    requires ClientOk(y) && Enabled(y, CallNextDecision)
    ensures ClientOk(y.(client := y.client.(pc := AwaitingFrame)))
  {
  }

  lemma AskMove(y: System)
    requires Inv(y) && Enabled(y, CallNextDecision)
    ensures Inv(Step(y, CallNextDecision))
  {
    AskClient(y);
    ClientAlone(y, y.client.(pc := AwaitingFrame));
  }

  /** The next frame of a connection is a good frame that continues the grammar. */
  lemma NextFrameGood(config: Config, c: Conn)
    requires ConnOk(config, c) && c.toClient != []
    ensures GoodFrame(config, c.toClient[0])
    ensures ScanFrame(ScanAll(c.received), c.toClient[0]).phase != Broken
  {
    var f := c.toClient[0];
    assert c.received + [f] <= c.sent by {
      assert c.received + [f] <= c.received + c.toClient;
    }
    ScanPrefix(c.received + [f], c.sent);
    ScanAppend(c.received, f);
    assert f == (c.received + c.toClient)[|c.received|];
    assert f in c.sent;
  }

  /** What receiving the frame does, by the phase of the grammar that it leads to. */
  predicate Accepted(config: Config, k: Client, scan: Scan, f: Frame)
    requires Reading(k)
  {
    var after := Receive(k, Incoming(f));
    && after.stream == k.stream
    && after.pc != Ready(Some(ProtocolError))
    && match ScanFrame(scan, f).phase
       case Start => false
       case Broken => false
       case Greeted => k.pc.AwaitingMetadata? && after == k.(metadata := after.metadata, pc := Ready(None))
                       && after.metadata.Some? && GoodMetadata(config, after.metadata.value)
       case ExtensionDue(o) => f == ObservationFrame(o) && after == k.(pc := AwaitingExtension(o))
       case Streaming =>
         if f.LifecycleFrame? then k.pc == AwaitingFrame && after == k.(lifecycle := k.lifecycle + [f.event])
         else k.pc.AwaitingExtension? && after == k.(decision := after.decision, pc := Ready(None))
              && after.decision.Some? && after.decision.value.observation == k.pc.observation
  }

  /** One frame that continues the grammar, given to a client that is in step with it. */
  lemma FrameAccepted(config: Config, k: Client, scan: Scan, f: Frame)
    requires Reading(k) && GoodFrame(config, f) && ScanFrame(scan, f).phase != Broken
    requires k.pc.AwaitingMetadata? <==> scan.phase == Start
    requires k.pc.AwaitingExtension? ==> scan.phase == ExtensionDue(k.pc.observation)
    requires scan.phase.ExtensionDue? ==> k.pc.AwaitingExtension?
    requires k.metadata.Some? ==> GoodMetadata(config, k.metadata.value)
    requires !k.pc.AwaitingMetadata? ==> k.metadata.Some?
    requires k.pc.AwaitingMetadata? && k.pc.expected.Some? ==>
               k.pc.expected.value == CredentialsOf(MetadataOf(config, 0))
    ensures Accepted(config, k, scan, f)
  {
  }

  /**
   Whatever the client is waiting for, the next frame is one it accepts: it never raises a
   protocol error against this server.
   */
  lemma NextFrameAccepted(y: System)
    requires Inv(y) && Enabled(y, ClientRead)
    ensures var c := y.conns[y.client.stream.value];
            Accepted(y.server.config, y.client, ScanAll(c.received), c.toClient[0])
  {
    var c := y.conns[y.client.stream.value];
    NextFrameGood(y.server.config, c);
    FrameAccepted(y.server.config, y.client, ScanAll(c.received), c.toClient[0]);
  }

  /** Moving the head of a queue to what was received leaves the stream as it was. */
  lemma MoveHead(received: seq<Frame>, toClient: seq<Frame>)
    requires toClient != []
    ensures received + [toClient[0]] + toClient[1..] == received + toClient
    ensures received <= received + [toClient[0]] <= received + toClient
  {
  }

  lemma ReadScan(c: Conn)
    requires c.toClient != []
    ensures ScanAll(c.received + [c.toClient[0]]) == ScanFrame(ScanAll(c.received), c.toClient[0])
  {
    ScanAppend(c.received, c.toClient[0]);
  }

  lemma ReadKeepsConn(config: Config, c: Conn)
    requires ConnOk(config, c) && c.toClient != []
    ensures ConnOk(config, c.(received := c.received + [c.toClient[0]], toClient := c.toClient[1..]))
  {
    var received := c.received + [c.toClient[0]];
    MoveHead(c.received, c.toClient);
    ScanPrefix(received, c.sent);
    ScanPrefix(c.received, received);
  }

  /** Reading a lifecycle frame moves its event from the wire into the client's record. */
  lemma ReadStory(stored: seq<LifecycleEvent>, toClient: seq<Frame>)
    requires toClient != []
    ensures stored + Events(toClient) ==
            stored + (if toClient[0].LifecycleFrame? then [toClient[0].event] else []) + Events(toClient[1..])
  {
    EventsConcat([toClient[0]], toClient[1..]);
    assert [toClient[0]] + toClient[1..] == toClient;
    assert [toClient[0]][..0] == [];
  }

  /** The client's step, frame by frame, against the wire grammar. */
  lemma ReadInStep(k: Client, after: Client, c: Conn)
    requires ClientInStep(k, c) && c.toClient != []
    requires k.stream.Some? && !k.pc.Ready? && k.decision.None?
    requires c.alive ==> c.replied <= ScanAll(c.received).observations <= c.replied + 1
    requires after.stream == k.stream
    requires ScanAll(c.received + [c.toClient[0]]) == ScanFrame(ScanAll(c.received), c.toClient[0])
    requires match ScanFrame(ScanAll(c.received), c.toClient[0]).phase
             case Start => false
             case Broken => false
             case Greeted => k.pc.AwaitingMetadata? && after.pc == Ready(None) && after.decision.None?
             case ExtensionDue(o) => c.toClient[0] == ObservationFrame(o) && after == k.(pc := AwaitingExtension(o))
             case Streaming =>
               if c.toClient[0].LifecycleFrame? then k.pc == AwaitingFrame && after.pc == k.pc
                   && after.decision == k.decision
               else k.pc.AwaitingExtension? && after.pc == Ready(None)
                    && after.decision.Some? && after.decision.value.observation == k.pc.observation
    ensures ClientInStep(after, c.(received := c.received + [c.toClient[0]], toClient := c.toClient[1..]))
  {
  }

  lemma ObservationsBound(config: Config, c: Conn)
    requires ConnOk(config, c)
    ensures c.received <= c.sent
    ensures c.replied <= ScanAll(c.received).observations <= c.replied + 1
  {
    assert c.received <= c.received + c.toClient;
    ScanPrefix(c.received, c.sent);
  }

  lemma ReadClient(y: System)
    requires Inv(y) && Enabled(y, ClientRead)
    ensures ClientOk(Step(y, ClientRead))
  {
    var c := y.conns[y.client.stream.value];
    NextFrameAccepted(y);
    ReadKeepsConn(y.server.config, c);
    ReadScan(c);
    ObservationsBound(y.server.config, c);
    ReadInStep(y.client, Receive(y.client, Incoming(c.toClient[0])), c);
  }

  lemma ReadKeepsStory(y: System)
    requires Inv(y) && Enabled(y, ClientRead)
    ensures Story(Step(y, ClientRead)) == Story(y)
  {
    NextFrameAccepted(y);
    ReadStory(y.client.lifecycle, y.conns[y.client.stream.value].toClient);
  }

  lemma ReadMove(y: System)
    requires Inv(y) && Enabled(y, ClientRead)
    ensures Inv(Step(y, ClientRead))
  {
    var z := Step(y, ClientRead);
    var i := y.client.stream.value;
    ReadClient(y);
    ReadKeepsStory(y);
    NextFrameAccepted(y);
    ReadKeepsConn(y.server.config, y.conns[i]);
    ReadScan(y.conns[i]);
    ClientSide(y, z, i, z.conns[i]);
  }

  // ---------------------------------------------------------------- every run

  lemma StepInv(y: System, move: Move)
    requires Inv(y) && Enabled(y, move)
    ensures Inv(Step(y, move))
  {
    match move
    case ServerIo(reply) =>
      match reply {
        case Wrote => WriteIo(y);
        case Failed(_) => FailedIo(y, reply);
        case Connected(_) => AcceptedIo(y, reply);
        case Arrived(_) => ArrivedIo(y, reply);
      }
    case CallExchange(_) => CallMove(y, move);
    case CallEmit(_, _, _) => CallMove(y, move);
    case CallNextDecision => AskMove(y);
    case ClientRead => ReadMove(y);
    case ClientEof => EofMove(y);
    case ClientSend(_, _, _) => SendMove(y, move);
    case ClientReconnect(reached, delivered) => ReconnectMove(y, reached, delivered);
    case ClientClose => CloseKeeps(y);
    case Break(_, _, _) => BreakMove(y, move);
  }

  lemma {:induction false} RunInv(y: System, moves: seq<Move>)
    requires Inv(y) && RunnableFrom(y, moves)
    ensures Inv(RunFrom(y, moves))
    decreases |moves|
  {
    if moves != [] {
      StepInv(y, moves[0]);
      RunInv(Step(y, moves[0]), moves[1..]);
    }
  }

  /** A state of some run of a session that the client can negotiate. */
  ghost predicate Reachable(config: Config, y: System) {
    && Typed(config) && Announceable(config)
    && exists moves :: RunnableFrom(Initial(config), moves) && RunFrom(Initial(config), moves) == y
  }

  lemma ReachableInv(config: Config, y: System)
    requires Reachable(config, y)
    ensures Inv(y)
  {
    var moves :| RunnableFrom(Initial(config), moves) && RunFrom(Initial(config), moves) == y;
    InitialInv(config);
    RunInv(Initial(config), moves);
  }

  /**
   Agreement. In every run, each Ok result of `exchange` is for the very observation that the
   client sent an action for, and is that action, sanitized: the action itself exactly if it
   was sane. Different results come from different sendings, in the order of the sendings.
   */
  lemma ExchangeAgreement(config: Config, y: System)
    requires Reachable(config, y)
    ensures forall i | 0 <= i < |y.results| ::
              y.results[i].ticket < |y.log| && Agrees(y.results[i], y.log[y.results[i].ticket])
    ensures forall i, j | 0 <= i < j < |y.results| :: y.results[i].ticket < y.results[j].ticket
  {
    ReachableInv(config, y);
    forall i | 0 <= i < |y.results| ensures Agrees(y.results[i], y.log[y.results[i].ticket]) {
      SanitizeIsExact(y.log[y.results[i].ticket].action);
    }
  }

  predicate Agrees(result: Agreement, sent: SentAction) {
    && result.observation == sent.observation
    && result.action == Sanitize(sent.action) && Sane(result.action)
    && (result.action == sent.action <==> Sane(sent.action))
  }

  /** A live connection is the client's latest. */
  lemma LiveIsLatest(y: System, i: nat)
    requires ClientOk(y) && i < |y.conns| && y.conns[i].alive
    ensures y.client.stream == Some(i) && ClientInStep(y.client, y.conns[i])
  {
  }

  /** An observation within a well-formed stream counts, and is the latest there. */
  lemma ObservationCounts(before: seq<Frame>, f: Frame, sent: seq<Frame>)
    requires before + [f] <= sent && ScanAll(sent).phase != Broken && f.ObservationFrame?
    ensures ScanAll(before).observations < ScanAll(sent).observations
    ensures ScanAll(sent).observations == ScanAll(before).observations + 1 ==> ScanAll(sent).last == Some(f.observation)
  {
    ScanPrefix(before + [f], sent);
    ScanAppend(before, f);
  }

  /** An observation in transit has not been counted by the client; if it is the only one, it is the latest. */
  lemma TransitScan(received: seq<Frame>, toClient: seq<Frame>, sent: seq<Frame>, i: nat)
    requires received + toClient <= sent && ScanAll(sent).phase != Broken
    requires i < |toClient| && toClient[i].ObservationFrame?
    ensures ScanAll(received).observations < ScanAll(sent).observations
    ensures ScanAll(sent).observations == ScanAll(received).observations + 1 ==>
              ScanAll(sent).last == Some(toClient[i].observation)
  {
    var before := received + toClient[..i];
    assert before + [toClient[i]] == received + toClient[..i + 1] <= received + toClient;
    ObservationCounts(before, toClient[i], sent);
    assert before <= before + [toClient[i]] <= sent;
    ScanPrefix(before, sent);
    ScanPrefix(received, before);
  }

  /** An observation on its way to the client is the one the server waits on. */
  lemma InTransit(s: Server, log: seq<SentAction>, results: seq<Agreement>, c: Conn, i: nat)
    requires CurrentOk(s, log, results, c) && ConnOk(s.config, c) && c.alive
    requires i < |c.toClient| && c.toClient[i].ObservationFrame?
    ensures Outstanding(s) == Some(c.toClient[i].observation)
  {
    TransitScan(c.received, c.toClient, c.sent, i);
  }

  lemma InFlight(y: System)
    requires Inv(y) && Current(y.server).Some?
    ensures Current(y.server).value < |y.conns|
    ensures var c := y.conns[Current(y.server).value];
            && |c.toServer| <= 1
            && (c.toServer != [] && c.toServer[0].ActionFrame? ==>
                  && Outstanding(y.server).Some?
                  && c.toServer[0].target == Outstanding(y.server).value.step
                  && c.toServer[0].entity == Outstanding(y.server).value.entity)
            && (c.alive && y.client.decision.Some? ==>
                  && c.toServer == []
                  && Outstanding(y.server) == Some(y.client.decision.value.observation))
            && (c.alive ==> forall f | f in c.toClient && f.ObservationFrame? ::
                  Outstanding(y.server) == Some(f.observation))
  {
    var i := Current(y.server).value;
    if y.conns[i].alive && y.client.decision.Some? {
      LiveIsLatest(y, i);
      NotResuming(y, y.conns[i]);
      DecisionInHand(y.server, y.log, y.results, y.client, y.conns[i]);
    }
    var c := y.conns[i];
    forall f | c.alive && f in c.toClient && f.ObservationFrame? ensures Outstanding(y.server) == Some(f.observation) {
      var k :| 0 <= k < |c.toClient| && c.toClient[k] == f;
      InTransit(y.server, y.log, y.results, c, k);
    }
  }

  /**
   Stop and wait. On the connection the server talks over at most one action is ever in
   flight, the client holds no decision of a live connection while one is, and every
   observation in transit or in hand is the one the server is waiting on.
   */
  lemma AtMostOneInFlight(config: Config, y: System)
    requires Reachable(config, y) && Current(y.server).Some?
    ensures Current(y.server).value < |y.conns|
    ensures var c := y.conns[Current(y.server).value];
            && |c.toServer| <= 1
            && (c.toServer != [] && c.toServer[0].ActionFrame? ==>
                  && Outstanding(y.server).Some?
                  && c.toServer[0].target == Outstanding(y.server).value.step
                  && c.toServer[0].entity == Outstanding(y.server).value.entity)
            && (c.alive && y.client.decision.Some? ==>
                  && c.toServer == []
                  && Outstanding(y.server) == Some(y.client.decision.value.observation))
            && (c.alive ==> forall f | f in c.toClient && f.ObservationFrame? ::
                  Outstanding(y.server) == Some(f.observation))
  {
    ReachableInv(config, y);
    InFlight(y);
  }

  /**
   With this client the server never takes the InvalidData branch, and never turns away a
   resume request: what it reads is the resume request of the session or the action for
   the outstanding observation.
   */
  lemma NoRetryOnInvalidData(config: Config, y: System, reply: Reply)
    requires Reachable(config, y) && Enabled(y, ServerIo(reply)) && reply.Arrived?
    ensures y.server.pc.AwaitingAction? ==>
              && reply.frame.ActionFrame?
              && Feed(y.server, reply).pc == Idle(Some(Completed(Sanitize(reply.frame.action))))
    ensures y.server.pc.AwaitingResume? ==> Feed(y.server, reply).pc.Greeting?
  {
    ReachableInv(config, y);
    ArrivalKeepsCurrent(y.server, y.log, y.results, y.conns[Current(y.server).value]);
  }

  /**
   Wire grammar. What the client received on any connection is a prefix of the grammar, and
   whatever it is given next it accepts; metadata announced again after a resume included.
   */
  lemma WireGrammar(config: Config, y: System)
    requires Reachable(config, y)
    ensures forall i | 0 <= i < |y.conns| :: ScanAll(y.conns[i].received).phase != Broken
    ensures Enabled(y, ClientRead) ==> Step(y, ClientRead).client.pc != Ready(Some(ProtocolError))
  {
    ReachableInv(config, y);
    forall i | 0 <= i < |y.conns| ensures ScanAll(y.conns[i].received).phase != Broken {
      var c := y.conns[i];
      assert c.received <= c.received + c.toClient;
      ScanPrefix(c.received, c.sent);
    }
    if Enabled(y, ClientRead) {
      NextFrameAccepted(y);
    }
  }

  /** Lifecycle order. Over all its connections the client stores events in increasing order. */
  lemma LifecycleOrder(config: Config, y: System)
    requires Reachable(config, y)
    ensures Increasing(y.client.lifecycle)
    ensures y.server.sequence < U64_MAX ==>
              forall i, j | 0 <= i < j < |y.client.lifecycle| ::
                y.client.lifecycle[i].sequence < y.client.lifecycle[j].sequence
  {
    ReachableInv(config, y);
    StoryPrefix(y.client.lifecycle, Story(y), y.written);
    forall i, j | 0 <= i < j < |y.client.lifecycle|
      ensures Precedes(y.client.lifecycle[i].sequence, y.client.lifecycle[j].sequence)
      ensures y.server.sequence < U64_MAX ==> y.client.lifecycle[i].sequence < y.client.lifecycle[j].sequence
    {
      assert y.client.lifecycle[i] in Story(y);
    }
  }

  lemma {:induction false} RunAppend(y: System, moves: seq<Move>, move: Move)
    requires RunnableFrom(y, moves) && Enabled(RunFrom(y, moves), move)
    ensures RunnableFrom(y, moves + [move])
    ensures RunFrom(y, moves + [move]) == Step(RunFrom(y, moves), move)
    decreases |moves|
  {
    if moves == [] {
      assert RunnableFrom(Step(y, move), []);
    } else {
      RunAppend(Step(y, moves[0]), moves[1..], move);
      assert (moves + [move])[1..] == moves[1..] + [move];
    }
  }

  lemma ReachableStep(config: Config, y: System, move: Move) returns (z: System)
    requires Reachable(config, y) && Enabled(y, move)
    ensures z == Step(y, move) && Reachable(config, z)
  {
    var moves :| RunnableFrom(Initial(config), moves) && RunFrom(Initial(config), moves) == y;
    RunAppend(Initial(config), moves, move);
    z := Step(y, move);
  }

  /** A session just opened: the client has its metadata, the attached event is on its way. */
  lemma Opening(config: Config) returns (y: System)
    requires Typed(config) && Announceable(config)
    ensures Reachable(config, y)
    ensures y.server == Server(config, Some(0), 1, [], Idle(None)) && y.results == [] && y.accepted == 1
    ensures y.client.pc == Ready(None) && y.client.stream == Some(0) && y.client.metadata.Some?
    ensures |y.conns| == 1
  {
    assert RunnableFrom(Initial(config), []) && RunFrom(Initial(config), []) == Initial(config);
    AnnouncedGood(config, 0);
    y := ReachableStep(config, Initial(config), ServerIo(Wrote));
    y := ReachableStep(config, y, ServerIo(Wrote));
    y := ReachableStep(config, y, ClientRead);
  }

  /** The client has reconnected in the middle of an exchange, and the server is about to accept it. */
  lemma Resuming(config: Config, x: Exchange) returns (y: System)
    requires Typed(config) && Announceable(config) && TypedExchange(x)
    ensures Reachable(config, y)
    ensures y.server.pc == Accepting(x) && y.server.stream.None? && y.results == [] && y.accepted == 1
    ensures |y.conns| == 2
  {
    y := Opening(config);
    y := ReachableStep(config, y, ClientReconnect(true, true));
    y := ReachableStep(config, y, CallExchange(x));
    y := ReachableStep(config, y, ServerIo(Failed(Disconnected)));
  }

  /**
   The world does not always wait. A client that connects and breaks before its resume
   request arrives makes `exchange` return an error, and no action was agreed.
   */
  lemma ResumeFailureAborts(config: Config, x: Exchange)
    requires Typed(config) && Announceable(config) && TypedExchange(x)
    ensures exists y :: Reachable(config, y) && y.server.pc == Idle(Some(Aborted)) && y.results == []
  {
    var y := Resuming(config, x);
    y := ReachableStep(config, y, Break(1, 0, 0));
    y := ReachableStep(config, y, ServerIo(Connected(1)));
    y := ReachableStep(config, y, ServerIo(Failed(Disconnected)));
  }
}
