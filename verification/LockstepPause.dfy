/**
 How long the world waits: the documentation has it paused from a transport loss until the
 client is back with a matching action. The code keeps that promise exactly as long as no
 resume attempt fails, and no fault other than a disconnect occurs.
 */
module LockstepPause {
  import opened Wrappers
  import opened Negotiation
  import opened Actions
  import opened LockstepFrames
  import opened LockstepServer
  import opened LockstepSystem
  import opened LockstepSafety

  /** The exchange the server is in the middle of: the world stands still. */
  function Underway(pc: Pc): Option<Exchange> {
    match pc
    case Accepting(x) => Some(x)
    case AwaitingResume(_, x) => Some(x)
    case Greeting(_, _, resumed) => resumed
    case Draining(_, _, _, resumed) => resumed
    case Announcing(_, resumed) => resumed
    case WritingObservation(x) => Some(x)
    case WritingExtension(x) => Some(x)
    case AwaitingAction(x) => Some(x)
    case _ => None
  }

  /** Between accepting a new connection and having announced the session on it. */
  predicate Resumes(pc: Pc) {
    pc.Accepting? || pc.AwaitingResume? || pc.Greeting? || pc.Draining? || pc.Announcing?
  }

  /** A failure while resuming, or one that is not a disconnect. */
  predicate Abandons(pc: Pc, reply: Reply) {
    Underway(pc).Some? && reply.Failed? && (Resumes(pc) || reply.fault.OtherError?)
  }

  /**
   What ends an exchange. It fails exactly if resuming fails or a fault is not a disconnect;
   it completes exactly if an action arrives, which then is agreed for its observation; after
   anything else it is still underway.
   */
  lemma EndsExactly(config: Config, y: System, reply: Reply)
    requires Reachable(config, y) && Enabled(y, ServerIo(reply)) && Underway(y.server.pc).Some?
    ensures var z := Step(y, ServerIo(reply));
            && (z.server.pc == Idle(Some(Aborted)) <==> Abandons(y.server.pc, reply))
            && (Underway(z.server.pc) == Underway(y.server.pc)
                <==> !Abandons(y.server.pc, reply) && !(y.server.pc.AwaitingAction? && reply.Arrived?))
            && (if y.server.pc.AwaitingAction? && reply.Arrived?
                then z.results == y.results +
                    [Agreement(y.server.pc.x.observation, Sanitize(reply.frame.action), reply.frame.ticket)]
                else z.results == y.results)
  {
    ReachableInv(config, y);
    IoEnds(y, reply);
  }

  lemma FeedEnds(s: Server, reply: Reply)
    requires Wired(s) && Fits(Wants(s), reply) && Underway(s.pc).Some?
    requires s.pc.AwaitingAction? && reply.Arrived? ==>
               reply.frame.ActionFrame? && Feed(s, reply).pc == Idle(Some(Completed(Sanitize(reply.frame.action))))
    ensures Feed(s, reply).pc == Idle(Some(Aborted)) <==> Abandons(s.pc, reply)
    ensures Underway(Feed(s, reply).pc) == Underway(s.pc)
            <==> !Abandons(s.pc, reply) && !(s.pc.AwaitingAction? && reply.Arrived?)
  {
  }

  lemma ActionAgreed(s: Server, results: seq<Agreement>, reply: Reply)
    requires Wired(s) && Fits(Wants(s), reply)
    requires s.pc.AwaitingAction? && reply.Arrived? ==>
               reply.frame.ActionFrame? && Feed(s, reply).pc == Idle(Some(Completed(Sanitize(reply.frame.action))))
    ensures var after := Record(results, s, reply, Feed(s, reply));
            if s.pc.AwaitingAction? && reply.Arrived?
            then after == results + [Agreement(s.pc.x.observation, Sanitize(reply.frame.action), reply.frame.ticket)]
            else after == results
  {
  }

  lemma IoEnds(y: System, reply: Reply)
    requires Inv(y) && Enabled(y, ServerIo(reply)) && Underway(y.server.pc).Some?
    ensures var z := Step(y, ServerIo(reply));
            && (z.server.pc == Idle(Some(Aborted)) <==> Abandons(y.server.pc, reply))
            && (Underway(z.server.pc) == Underway(y.server.pc)
                <==> !Abandons(y.server.pc, reply) && !(y.server.pc.AwaitingAction? && reply.Arrived?))
            && (if y.server.pc.AwaitingAction? && reply.Arrived?
                then z.results == y.results +
                    [Agreement(y.server.pc.x.observation, Sanitize(reply.frame.action), reply.frame.ticket)]
                else z.results == y.results)
  {
    if reply.Arrived? && y.server.pc.AwaitingAction? {
      ArrivalKeepsCurrent(y.server, y.log, y.results, y.conns[Current(y.server).value]);
    }
    FeedEnds(y.server, reply);
    ActionAgreed(y.server, y.results, reply);
  }

  /** A run in which no exchange is abandoned. */
  ghost predicate Patient(y: System, moves: seq<Move>)
    requires RunnableFrom(y, moves)
    decreases |moves|
  {
    moves == [] ||
    (!(moves[0].ServerIo? && Abandons(y.server.pc, moves[0].reply)) && Patient(Step(y, moves[0]), moves[1..]))
  }

  /** The exchange `x` is still underway, or the first thing agreed since is an action for it. */
  predicate WaitsOrAgreed(before: seq<Agreement>, x: Exchange, z: System) {
    && before <= z.results
    && (if z.results == before then Underway(z.server.pc) == Some(x)
        else z.results[|before|].observation == x.observation)
  }

  lemma WaitingStep(before: seq<Agreement>, x: Exchange, y: System, move: Move)
    requires Inv(y) && WaitsOrAgreed(before, x, y) && Enabled(y, move)
    requires !(move.ServerIo? && Abandons(y.server.pc, move.reply))
    ensures WaitsOrAgreed(before, x, Step(y, move))
  {
    var z := Step(y, move);
    assert y.results <= z.results;
    if y.results == before && move.ServerIo? { IoEnds(y, move.reply); }
  }

  /**
   The pause. In a run that abandons no exchange, whatever breaks, however often the client
   has to come back: the world stands still until an action for the very observation arrives.
   */
  lemma {:induction false} PausedUntilAction(before: seq<Agreement>, x: Exchange, y: System, moves: seq<Move>)
    requires Inv(y) && WaitsOrAgreed(before, x, y) && RunnableFrom(y, moves) && Patient(y, moves)
    ensures WaitsOrAgreed(before, x, RunFrom(y, moves))
    decreases |moves|
  {
    if moves != [] {
      WaitingStep(before, x, y, moves[0]);
      StepInv(y, moves[0]);
      PausedUntilAction(before, x, Step(y, moves[0]), moves[1..]);
    }
  }

  /** From the moment `exchange` is called. */
  lemma PausedFromCall(config: Config, y: System, x: Exchange, moves: seq<Move>)
    requires Reachable(config, y) && Enabled(y, CallExchange(x))
    requires RunnableFrom(Step(y, CallExchange(x)), moves) && Patient(Step(y, CallExchange(x)), moves)
    ensures WaitsOrAgreed(y.results, x, RunFrom(Step(y, CallExchange(x)), moves))
  {
    ReachableInv(config, y);
    StepInv(y, CallExchange(x));
    PausedUntilAction(y.results, x, Step(y, CallExchange(x)), moves);
  }
}
