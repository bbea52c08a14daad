/**
 What the transport says and listens to, turn by turn: the frames it writes, in order, and what
 each frame that arrives does, whatever client is on the other side.
 */
module LockstepTurns {
  import opened Wrappers
  import opened Negotiation
  import opened Actions
  import opened LockstepFrames
  import opened LockstepServer
  import opened LockstepClient

  /** The operations performed from `s` on, as these answers come. */
  ghost function Requests(s: Server, replies: seq<Reply>): seq<Request>
    requires Wired(s) && Accepts(s, replies)
    decreases |replies|
  {
    if replies == [] then [] else [Wants(s)] + Requests(Feed(s, replies[0]), replies[1..])
  }

  /** One more answer at the front. */
  lemma TurnFirst(s: Server, reply: Reply, replies: seq<Reply>)
    requires Wired(s) && Fits(Wants(s), reply) && Accepts(Feed(s, reply), replies)
    ensures Accepts(s, [reply] + replies)
    ensures Requests(s, [reply] + replies) == [Wants(s)] + Requests(Feed(s, reply), replies)
    ensures FeedAll(s, [reply] + replies) == FeedAll(Feed(s, reply), replies)
  {
    var all := [reply] + replies;
    assert all[0] == reply && all[1..] == replies;
  }

  function Writes(conn: nat, frames: seq<Frame>): (requests: seq<Request>)
    ensures |requests| == |frames| && forall i | 0 <= i < |frames| :: requests[i] == Write(conn, frames[i])
  {
    seq(|frames|, i requires 0 <= i < |frames| => Write(conn, frames[i]))
  }

  function Successes(n: nat): (replies: seq<Reply>)
    ensures |replies| == n && forall r | r in replies :: r == Wrote
  {
    seq(n, _ => Wrote)
  }

  function Told(events: seq<LifecycleEvent>): (frames: seq<Frame>)
    ensures |frames| == |events| && forall i | 0 <= i < |events| :: frames[i] == LifecycleFrame(events[i])
  {
    seq(|events|, i requires 0 <= i < |events| => LifecycleFrame(events[i]))
  }

  // ---------------------------------------------------------------- greeting

  /** Where attaching leads: to the observation of the exchange that was interrupted, or to rest. */
  function Attached(resumed: Option<Exchange>): Pc {
    if resumed.Some? then WritingObservation(resumed.value) else Idle(None)
  }

  function SessionEvent(s: Server, tick: nat, kind: LifecycleKind): LifecycleEvent {
    LifecycleEvent(NextSequence(s.sequence), tick, kind, None)
  }

  lemma {:induction false} DrainWrites(s: Server, conn: nat, tick: nat, rest: seq<LifecycleEvent>,
                                       resumed: Option<Exchange>)
    ensures var t, n := Drain(s, conn, tick, rest, resumed), |rest| + 1;
            && Wired(t) && Accepts(t, Successes(n))
            && Requests(t, Successes(n)) == Writes(conn, Told(rest + [SessionEvent(s, tick, SessionAttached)]))
            && FeedAll(t, Successes(n)) ==
               s.(stream := Some(conn), sequence := NextSequence(s.sequence), pc := Attached(resumed))
    decreases |rest|
  {
    var t, n := Drain(s, conn, tick, rest, resumed), |rest| + 1;
    assert Successes(n) == [Wrote] + Successes(|rest|);
    if rest == [] {
      TurnFirst(t, Wrote, []);
    } else {
      DrainWrites(s, conn, tick, rest[1..], resumed);
      var next := Drain(s, conn, tick, rest[1..], resumed);
      assert Feed(t, Wrote) == next;
      TurnFirst(t, Wrote, Successes(|rest|));
    }
  }

  /**
   Greeting a new stream. As long as the network takes what is written, the client is sent the
   metadata of that tick, every event that was waiting, in order, and the event of its own
   attachment; then nothing waits any more.
   */
  lemma GreetingWrites(s: Server)
    requires s.pc.Greeting?
    ensures var conn, tick := s.pc.conn, s.pc.tick;
            var frames := [MetadataFrame(MetadataOf(s.config, tick))]
                          + Told(s.pending + [LifecycleEvent(NextSequence(s.sequence), tick, SessionAttached, None)]);
            && Accepts(s, Successes(|frames|)) && Requests(s, Successes(|frames|)) == Writes(conn, frames)
            && FeedAll(s, Successes(|frames|)) ==
               Server(s.config, Some(conn), NextSequence(s.sequence), [],
                      if s.pc.resumed.Some? then WritingObservation(s.pc.resumed.value) else Idle(None))
  {
    var clear := s.(pending := []);
    DrainWrites(clear, s.pc.conn, s.pc.tick, s.pending, s.pc.resumed);
    var n := |s.pending| + 1;
    assert Successes(n + 1) == [Wrote] + Successes(n);
    TurnFirst(s, Wrote, Successes(n));
  }

  // ---------------------------------------------------------------- resuming

  /** Only the session's own resume request is greeted; any other frame is turned away, and nothing is changed. */
  lemma ResumeDecides(s: Server, frame: Frame)
    requires s.pc.AwaitingResume?
    ensures var x, t := s.pc.x, Feed(s, Arrived(frame));
            && (t == s.(pc := Greeting(s.pc.conn, x.observation.step, Some(x)))
                <==> frame == ResumeFrame(s.config.sessionId, s.config.resumeToken))
            && (t == s.(pc := Accepting(x))
                <==> frame != ResumeFrame(s.config.sessionId, s.config.resumeToken))
  {
  }

  // ---------------------------------------------------------------- the exchange

  /** The action asked for, by the step and the entity of the observation. */
  predicate Matches(frame: Frame, o: Observation) {
    frame.ActionFrame? && frame.target == o.step && frame.entity == o.entity
  }

  /**
   Whatever arrives while an action is awaited: the exchange completes if and only if it is an
   action for that step and entity, and then with that action, sanitized; anything else has the
   observation written again, on the same stream.
   */
  lemma ActionDecides(s: Server, frame: Frame)
    requires s.pc.AwaitingAction? && s.stream.Some?
    ensures var x, t := s.pc.x, Feed(s, Arrived(frame));
            && (t.pc.Idle? <==>
                frame.ActionFrame? && frame.target == x.observation.step && frame.entity == x.observation.entity)
            && (t.pc.Idle? ==> t == s.(pc := Idle(Some(Completed(Sanitize(frame.action))))))
            && (!t.pc.Idle? ==> t == s.(pc := WritingObservation(x)))
  {
  }

  /**
   One conversation: the observation and its own extension are written, in this order and to the
   attached stream, before an action is read; an action for them completes the exchange.
   */
  lemma ConversationWrites(s: Server, frame: Frame)
    requires s.pc.WritingObservation? && s.stream.Some? && Matches(frame, s.pc.x.observation)
    ensures var x, conn, replies := s.pc.x, s.stream.value, [Wrote, Wrote, Arrived(frame)];
            && Accepts(s, replies)
            && Requests(s, replies) == [Write(conn, ObservationFrame(x.observation)),
                                        Write(conn, ExtensionFrame(x.observation.step, x.extension)), Read(conn)]
            && FeedAll(s, replies) == s.(pc := Idle(Some(Completed(Sanitize(frame.action)))))
  {
    var x := s.pc.x;
    var third := s.(pc := AwaitingAction(x));
    TurnFirst(third, Arrived(frame), []);
    var second := s.(pc := WritingExtension(x));
    TurnFirst(second, Wrote, [Arrived(frame)]);
    assert [Wrote] + [Arrived(frame)] == [Wrote, Arrived(frame)];
    TurnFirst(s, Wrote, [Wrote, Arrived(frame)]);
    assert [Wrote] + [Wrote, Arrived(frame)] == [Wrote, Wrote, Arrived(frame)];
  }

  /** A stream lost in the middle of an exchange is noted for the client that comes back, and awaited. */
  lemma LossIsNoted(s: Server)
    requires s.stream.Some? && (s.pc.WritingObservation? || s.pc.WritingExtension? || s.pc.AwaitingAction?)
    ensures var x := s.pc.x;
            var detached := LifecycleEvent(NextSequence(s.sequence), x.observation.step, SessionDetached, None);
            Feed(s, Failed(Disconnected)) ==
            Server(s.config, None, detached.sequence, s.pending + [detached], Accepting(x))
  {
  }

  /** An event between ticks: written at once to an attached stream, and otherwise kept for the next one. */
  lemma EventWrites(s: Server, tick: nat, kind: LifecycleKind, related: Option<nat>, reply: Reply)
    requires AtRest(s) && (reply.Wrote? || reply.Failed?)
    ensures var event := LifecycleEvent(NextSequence(s.sequence), tick, kind, related);
            var t := BeginEmit(s, tick, kind, related);
            if s.stream.None? then t == s.(sequence := event.sequence, pending := s.pending + [event], pc := Idle(None))
            else
              && Wants(t) == Write(s.stream.value, LifecycleFrame(event))
              && Feed(t, reply) == s.(sequence := event.sequence, pc := Idle(None))
  {
  }

  // ---------------------------------------------------------------- the client's side

  /** What the client demands of the metadata of a session that it is connecting to, or already in. */
  predicate Welcome(c: Client, m: Metadata) {
    && ValidMetadata(m)
    && (c.metadata.Some? ==> c.metadata.value == m.(worldTick := c.metadata.value.worldTick))
    && (c.pc.AwaitingMetadata? && c.pc.expected.Some? ==>
          && m.sessionId == c.pc.expected.value.sessionId && m.resumeToken == c.pc.expected.value.resumeToken
          && m.stableAgentId == c.pc.expected.value.stableAgentId)
  }

  /**
   Whoever sends it: metadata is taken if and only if it is valid, describes the session negotiated
   before up to the world tick, and has the credentials that were asked for. Otherwise the client
   raises a protocol error, and a client that was connecting closes its socket.
   */
  lemma MetadataDecides(c: Client, m: Metadata)
    requires c.stream.Some? && (c.pc.AwaitingMetadata? || c.pc == AwaitingFrame)
    ensures var after := Receive(c, Incoming(MetadataFrame(m)));
            && (Welcome(c, m) ==>
                  after == c.(metadata := Some(m), pc := if c.pc.AwaitingMetadata? then Ready(None) else c.pc))
            && (!Welcome(c, m) ==>
                  && after.pc == Ready(Some(ProtocolError)) && (after.stream.None? <==> c.pc.AwaitingMetadata?)
                  && after.decision == c.decision && after.lifecycle == c.lifecycle)
  {
  }

  /** A lifecycle event is stored if and only if its numbers fit their fields and it is numbered from one. */
  lemma EventDecides(c: Client, event: LifecycleEvent)
    requires c.stream.Some? && (c.pc.AwaitingMetadata? || c.pc == AwaitingFrame)
    ensures var after := Receive(c, Incoming(LifecycleFrame(event)));
            if 1 <= event.sequence <= 0xFFFF_FFFF_FFFF_FFFF && event.tick <= 0xFFFF_FFFF_FFFF_FFFF
               && (event.related.Some? ==> event.related.value <= 0xFFFF_FFFF_FFFF_FFFF)
            then after == c.(lifecycle := c.lifecycle + [event])
            else after.pc == Ready(Some(ProtocolError)) && after.lifecycle == c.lifecycle
  {
  }

  /**
   An observation becomes a decision together with the frame that follows it, if and only if that is
   its own extension, numbered from one; at once, where no extensions were negotiated.
   */
  lemma ExtensionDecides(c: Client, frame: Frame)
    requires c.stream.Some? && c.pc.AwaitingExtension? && c.decision.None?
    ensures var after, o := Receive(c, Incoming(frame)), c.pc.observation;
            if frame.ExtensionFrame? && frame.step == o.step
               && 1 <= frame.extension.decisionSequence <= 0xFFFF_FFFF_FFFF_FFFF
            then after == c.(decision := Some(Decision(o, frame.extension)), pc := Ready(None))
            else after == c.(pc := Ready(Some(ProtocolError)))
  {
  }

  lemma ObservationDecides(c: Client, o: Observation)
    requires c.stream.Some? && c.pc == AwaitingFrame && c.decision.None?
    ensures Receive(c, Incoming(ObservationFrame(o))) ==
            if c.metadata.Some? && c.metadata.value.physicalDeltas then c.(pc := AwaitingExtension(o))
            else c.(decision := Some(Decision(o, Extension(0, None))), pc := Ready(None))
  {
  }

  /** Anything else, and the end of the stream, is an error; nothing is stored, and no decision is made. */
  lemma OtherwiseRaises(c: Client, arrival: Arrival)
    requires c.stream.Some? && !c.pc.Ready? && c.decision.None?
    requires arrival.Eof? || arrival.frame.ActionFrame? || arrival.frame.ResumeFrame?
             || (c.pc.AwaitingMetadata? && (arrival.frame.ObservationFrame? || arrival.frame.ExtensionFrame?))
             || (c.pc == AwaitingFrame && arrival.frame.ExtensionFrame?)
    ensures var after, error := Receive(c, arrival), if arrival.Eof? then EndOfFile else ProtocolError;
            after == c.(pc := Ready(Some(error)), stream := if c.pc.AwaitingMetadata? then None else c.stream)
  {
  }
}
