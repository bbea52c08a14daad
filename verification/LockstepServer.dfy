/**
 The server half of the lockstep session. `Server` is the transport at the grain of single
 socket operations: `Wants` names the operation it is about to perform and `Feed` gives the
 state after the network's answer. `SessionTransport` is the program itself, and each of its
 methods is proved to perform exactly the operations of the automaton, in order, and to end
 in its state, whatever the network answers.
 */
module LockstepServer {
  import opened Wrappers
  import opened Negotiation
  import opened Actions
  import opened LockstepFrames

  datatype Exchange = Exchange(observation: Observation, extension: Extension)

  datatype Outcome = Completed(action: ActionTensor) | Aborted

  /** Failures of one socket operation, by the branch of `exchange` that they select. */
  datatype Fault = Disconnected | InvalidData | OtherError

  datatype Pc =
    | Idle(outcome: Option<Outcome>)
    | Refused
    | Accepting(x: Exchange)
    | AwaitingResume(conn: nat, x: Exchange)
    | Greeting(conn: nat, tick: nat, resumed: Option<Exchange>)
    | Draining(conn: nat, tick: nat, rest: seq<LifecycleEvent>, resumed: Option<Exchange>)
    | Announcing(attached: LifecycleEvent, resumed: Option<Exchange>)
    | Emitting(event: LifecycleEvent)
    | WritingObservation(x: Exchange)
    | WritingExtension(x: Exchange)
    | AwaitingAction(x: Exchange)

  datatype Server = Server(
    config: Config, stream: Option<nat>, sequence: nat, pending: seq<LifecycleEvent>, pc: Pc)

  datatype Request = Write(conn: nat, frame: Frame) | Read(from: nat) | Accept | Nothing

  datatype Reply = Wrote | Arrived(frame: Frame) | Connected(conn: nat) | Failed(fault: Fault)

  /** A stream the automaton is about to use is attached, and what it drains is not empty. */
  predicate Wired(s: Server) {
    && ((s.pc.Announcing? || s.pc.Emitting? || s.pc.WritingObservation?
         || s.pc.WritingExtension? || s.pc.AwaitingAction?) ==>
          s.stream.Some?)
    && (s.pc.Draining? ==> s.pc.rest != [])
  }

  function Wants(s: Server): Request
    requires Wired(s)
  {
    match s.pc
    case Idle(_) => Nothing
    case Refused => Nothing
    case Accepting(_) => Accept
    case AwaitingResume(conn, _) => Read(conn)
    case Greeting(conn, tick, _) => Write(conn, MetadataFrame(MetadataOf(s.config, tick)))
    case Draining(conn, _, rest, _) => Write(conn, LifecycleFrame(rest[0]))
    case Announcing(event, _) => Write(s.stream.value, LifecycleFrame(event))
    case Emitting(event) => Write(s.stream.value, LifecycleFrame(event))
    case WritingObservation(x) => Write(s.stream.value, ObservationFrame(x.observation))
    case WritingExtension(x) => Write(s.stream.value, ExtensionFrame(x.observation.step, x.extension))
    case AwaitingAction(_) => Read(s.stream.value)
  }

  predicate Fits(request: Request, reply: Reply) {
    match request
    case Write(_, _) => reply.Wrote? || reply.Failed?
    case Read(_) => reply.Arrived? || reply.Failed?
    case Accept => reply.Connected? || reply.Failed?
    case Nothing => false
  }

  /** The head of the retry loop in `exchange`. */
  function Retry(s: Server, x: Exchange): Server {
    s.(pc := if s.stream.None? then Accepting(x) else WritingObservation(x))
  }

  /** `emit_lifecycle` with no stream attached: the event waits. */
  function Postpone(s: Server, tick: nat, kind: LifecycleKind, related: Option<nat>): Server {
    var sequence := NextSequence(s.sequence);
    s.(sequence := sequence, pending := s.pending + [LifecycleEvent(sequence, tick, kind, related)])
  }

  /** The stream is lost in the middle of an exchange. */
  function Detach(s: Server, x: Exchange): Server {
    Retry(Postpone(s.(stream := None), x.observation.step, SessionDetached, None), x)
  }

  /** The error arms at the end of the loop in `exchange`. */
  function Recover(s: Server, x: Exchange, fault: Fault): Server {
    match fault
    case Disconnected => Detach(s, x)
    case InvalidData => Retry(s, x)
    case OtherError => s.(pc := Idle(Some(Aborted)))
  }

  /** An error inside `attach` or `accept_resume` leaves `exchange`, or the constructor. */
  function GiveUp(s: Server, resumed: Option<Exchange>): Server {
    s.(pc := if resumed.None? then Refused else Idle(Some(Aborted)))
  }

  /** The waiting events are written first; then the new session is announced. */
  function Drain(s: Server, conn: nat, tick: nat, rest: seq<LifecycleEvent>, resumed: Option<Exchange>): Server {
    if rest != [] then s.(pc := Draining(conn, tick, rest, resumed))
    else
      var sequence := NextSequence(s.sequence);
      s.(stream := Some(conn), sequence := sequence,
         pc := Announcing(LifecycleEvent(sequence, tick, SessionAttached, None), resumed))
  }

  function Feed(s: Server, reply: Reply): (t: Server)
    requires Wired(s) && Fits(Wants(s), reply)
    ensures Wired(t) && t.config == s.config
  {
    match s.pc
    case Accepting(x) =>
      if reply.Connected? then s.(pc := AwaitingResume(reply.conn, x)) else GiveUp(s, Some(x))
    case AwaitingResume(conn, x) =>
      if reply.Failed? then GiveUp(s, Some(x))
      else if !reply.frame.ResumeFrame? then s.(pc := Accepting(x))
      else if reply.frame == ResumeFrame(s.config.sessionId, s.config.resumeToken) then
        s.(pc := Greeting(conn, x.observation.step, Some(x)))
      else s.(pc := Accepting(x))
    case Greeting(conn, tick, resumed) =>
      if reply.Failed? then GiveUp(s, resumed)
      else Drain(s.(pending := []), conn, tick, s.pending, resumed)
    case Draining(conn, tick, rest, resumed) =>
      if reply.Failed? then GiveUp(s, resumed) else Drain(s, conn, tick, rest[1..], resumed)
    case Announcing(_, resumed) =>
      if reply.Failed? then GiveUp(s, resumed)
      else if resumed.Some? then Retry(s, resumed.value)
      else s.(pc := Idle(None))
    case Emitting(_) => s.(pc := Idle(None))
    case WritingObservation(x) =>
      if reply.Failed? then Recover(s, x, reply.fault) else s.(pc := WritingExtension(x))
    case WritingExtension(x) =>
      if reply.Failed? then Recover(s, x, reply.fault) else s.(pc := AwaitingAction(x))
    case AwaitingAction(x) =>
      if reply.Failed? then Recover(s, x, reply.fault)
      else if !reply.frame.ActionFrame? then Recover(s, x, InvalidData)
      else if reply.frame.target != x.observation.step || reply.frame.entity != x.observation.entity then
        Recover(s, x, InvalidData)
      else s.(pc := Idle(Some(Completed(Sanitize(reply.frame.action)))))
  }

  predicate AtRest(s: Server) {
    s.pc.Idle?
  }

  function BeginExchange(s: Server, x: Exchange): Server {
    Retry(s, x)
  }

  function BeginEmit(s: Server, tick: nat, kind: LifecycleKind, related: Option<nat>): Server {
    if s.stream.None? then Postpone(s, tick, kind, related).(pc := Idle(None))
    else
      var sequence := NextSequence(s.sequence);
      s.(sequence := sequence, pc := Emitting(LifecycleEvent(sequence, tick, kind, related)))
  }

  /** Feeding a whole list of answers, as far as each fits the request it meets. */
  ghost predicate Accepts(s: Server, replies: seq<Reply>)
    requires Wired(s)
    decreases |replies|
  {
    replies == [] || (Fits(Wants(s), replies[0]) && Accepts(Feed(s, replies[0]), replies[1..]))
  }

  ghost function FeedAll(s: Server, replies: seq<Reply>): (t: Server)
    requires Wired(s) && Accepts(s, replies)
    ensures Wired(t)
    decreases |replies|
  {
    if replies == [] then s else FeedAll(Feed(s, replies[0]), replies[1..])
  }

  lemma {:induction false} FeedAppend(s: Server, replies: seq<Reply>, reply: Reply)
    requires Wired(s) && Accepts(s, replies)
    requires Fits(Wants(FeedAll(s, replies)), reply)
    ensures Accepts(s, replies + [reply])
    ensures FeedAll(s, replies + [reply]) == Feed(FeedAll(s, replies), reply)
    decreases |replies|
  {
    if replies == [] {
      assert Accepts(Feed(s, reply), []);
    } else {
      FeedAppend(Feed(s, replies[0]), replies[1..], reply);
      assert (replies + [reply])[1..] == replies[1..] + [reply];
    }
  }

  /**
   `SessionTransport`, and the network it talks to. `script` is what the network is going to
   answer: an arbitrary finite list, so a call that outlives it is still blocked in a socket
   operation. `start`, `answers` and `view` record the automaton's side of the execution.
   */
  class SessionTransport {
    const config: Config
    var stream: Option<nat>
    var lifecycleSequence: nat
    var pendingLifecycle: seq<LifecycleEvent>
    var script: seq<Reply>
    ghost var start: Server
    ghost var answers: seq<Reply>
    ghost var view: Server

    ghost predicate Tracking()
      reads this
    {
      && Wired(start) && Accepts(start, answers) && view == FeedAll(start, answers)
      && view.config == config
    }

    /** The program's own fields, as a state of the automaton. */
    ghost function Fields(): Server
      reads this
    {
      Server(config, stream, lifecycleSequence, pendingLifecycle, view.pc)
    }

    ghost predicate Valid()
      reads this
    {
      Tracking() && view == Fields()
    }

    /** `LockstepSession::new`: the transport of a fresh session, attached to its first stream. */
    constructor (config: Config, script: seq<Reply>)
      ensures Valid() && this.config == config && this.script == script
      ensures start == Server(config, None, 0, [], Greeting(0, 0, None)) && answers == []
    {
      this.config := config;
      this.stream, this.lifecycleSequence, this.pendingLifecycle := None, 0, [];
      this.script := script;
      this.start := Server(config, None, 0, [], Greeting(0, 0, None));
      this.answers := [];
      this.view := Server(config, None, 0, [], Greeting(0, 0, None));
    }

    /** One socket operation: the network's next answer, if it is an answer to this request. */
    method Perform(request: Request) returns (reply: Option<Reply>)
      requires Tracking() && Wants(view) == request
      modifies this`script, this`answers, this`view
      ensures Tracking() && |script| <= old(|script|)
      ensures reply.None? ==> view == old(view)
      ensures reply.Some? ==>
                && Fits(request, reply.value) && view == Feed(old(view), reply.value)
                && |script| < old(|script|)
    {
      if script == [] || !Fits(request, script[0]) {
        return None;
      }
      reply := Some(script[0]);
      FeedAppend(start, answers, script[0]);
      answers := answers + [script[0]];
      view := Feed(view, script[0]);
      script := script[1..];
    }

    /**
     Number the event; then write it, or let it wait when no stream is attached. A caller
     that has a stream is at the automaton's write of this very event.
     */
    method EmitLifecycle(tick: nat, kind: LifecycleKind, related: Option<nat>)
      returns (blocked: bool, ok: bool)
      requires Tracking()
      requires stream.Some? ==>
                 && view == Fields().(sequence := NextSequence(lifecycleSequence))
                 && Wants(view) == Write(stream.value, LifecycleFrame(
                      LifecycleEvent(NextSequence(lifecycleSequence), tick, kind, related)))
      modifies this`script, this`answers, this`view, this`lifecycleSequence, this`pendingLifecycle
      ensures Tracking() && |script| <= old(|script|)
      ensures lifecycleSequence == NextSequence(old(lifecycleSequence))
      ensures stream.None? ==>
                && !blocked && ok && view == old(view)
                && pendingLifecycle == old(pendingLifecycle) + [LifecycleEvent(lifecycleSequence, tick, kind, related)]
      ensures stream.Some? ==> pendingLifecycle == old(pendingLifecycle)
      ensures stream.Some? && blocked ==> view == old(view)
      ensures stream.Some? && !blocked ==>
                exists reply :: Fits(Wants(old(view)), reply) && view == Feed(old(view), reply) && ok == reply.Wrote?
    {
      lifecycleSequence := if lifecycleSequence < U64_MAX then lifecycleSequence + 1 else lifecycleSequence;
      var event := LifecycleEvent(lifecycleSequence, tick, kind, related);
      blocked, ok := false, true;
      if stream.Some? {
        var reply := Perform(Write(stream.value, LifecycleFrame(event)));
        blocked := reply.None?;
        ok := reply == Some(Wrote);
      } else {
        pendingLifecycle := pendingLifecycle + [event];
      }
    }

    /** Attaching a stream; `ok` is false when the call returns an error. */
    method Attach(conn: nat, worldTick: nat, ghost resumed: Option<Exchange>)
      returns (blocked: bool, ok: bool)
      requires Valid() && stream.None? && view.pc == Greeting(conn, worldTick, resumed)
      modifies this
      ensures Tracking() && start == old(start) && |script| <= old(|script|)
      ensures !blocked ==> Valid()
      ensures !blocked && !ok ==> view.pc == GiveUp(view, resumed).pc
      ensures !blocked && ok ==> stream == Some(conn)
      ensures !blocked && ok && resumed.Some? ==> view.pc == WritingObservation(resumed.value)
      ensures !blocked && ok && resumed.None? ==> view.pc == Idle(None)
    {
      var reply := Perform(Write(conn, MetadataFrame(MetadataOf(config, worldTick))));
      if reply.None? { return true, false; }
      if reply.value.Failed? { return false, false; }
      var rest := pendingLifecycle;
      pendingLifecycle := [];
      while rest != []
        invariant Tracking() && start == old(start) && |script| <= old(|script|)
        invariant stream.None? && view == Drain(Fields(), conn, worldTick, rest, resumed)
        decreases |rest|
      {
        reply := Perform(Write(conn, LifecycleFrame(rest[0])));
        if reply.None? { return true, false; }
        if reply.value.Failed? { return false, false; }
        rest := rest[1..];
      }
      stream := Some(conn);
      blocked, ok := EmitLifecycle(worldTick, SessionAttached, None);
    }

    /** Wait for the session's client to come back. */
    method AcceptResume(ghost x: Exchange, worldTick: nat) returns (blocked: bool, ok: bool)
      requires Valid() && stream.None? && view.pc == Accepting(x) && worldTick == x.observation.step
      modifies this
      ensures Tracking() && start == old(start) && |script| <= old(|script|)
      ensures !blocked ==> Valid() && |script| < old(|script|)
      ensures !blocked && !ok ==> view.pc == Idle(Some(Aborted))
      ensures !blocked && ok ==> stream.Some? && view.pc == WritingObservation(x)
    {
      while true
        invariant Valid() && start == old(start) && |script| <= old(|script|)
        invariant stream.None? && view.pc == Accepting(x)
        decreases |script|
      {
        var reply := Perform(Accept);
        if reply.None? { return true, false; }
        if reply.value.Failed? { return false, false; }
        var conn := reply.value.conn;
        reply := Perform(Read(conn));
        if reply.None? { return true, false; }
        if reply.value.Failed? { return false, false; }
        var frame := reply.value.frame;
        if !frame.ResumeFrame? { continue; }
        if frame.sessionId == config.sessionId && frame.resumeToken == config.resumeToken {
          blocked, ok := Attach(conn, worldTick, Some(x));
          return;
        }
      }
    }

    /** Write the observation and its extension; read one action. */
    method Converse(x: Exchange) returns (blocked: bool, result: Result<ActionTensor, Fault>)
      requires Valid() && stream.Some? && view.pc == WritingObservation(x)
      modifies this`script, this`answers, this`view
      ensures Tracking() && |script| <= old(|script|)
      ensures !blocked ==> |script| < old(|script|)
      ensures !blocked && result.Success? ==> view == Fields().(pc := Idle(Some(Completed(result.value))))
      ensures !blocked && result.Failure? ==> view == Recover(Fields(), x, result.error)
    {
      result := Failure(OtherError);
      var reply := Perform(Write(stream.value, ObservationFrame(x.observation)));
      if reply.None? { return true, result; }
      if reply.value.Failed? { return false, Failure(reply.value.fault); }
      reply := Perform(Write(stream.value, ExtensionFrame(x.observation.step, x.extension)));
      if reply.None? { return true, result; }
      if reply.value.Failed? { return false, Failure(reply.value.fault); }
      reply := Perform(Read(stream.value));
      if reply.None? { return true, result; }
      if reply.value.Failed? { return false, Failure(reply.value.fault); }
      var frame := reply.value.frame;
      if !frame.ActionFrame? { return false, Failure(InvalidData); }
      if frame.target != x.observation.step || frame.entity != x.observation.entity {
        return false, Failure(InvalidData);
      }
      return false, Success(Sanitize(frame.action));
    }

    /**
     The exchange at a decision boundary. For every behaviour of the network it performs the
     operations of the automaton from `BeginExchange`, and it returns an action only when the
     automaton completed with it.
     */
    method RunExchange(x: Exchange) returns (outcome: Option<Outcome>)
      requires Valid() && AtRest(view)
      modifies this
      ensures Tracking() && start == BeginExchange(old(view), x)
      ensures outcome.Some? ==> Valid() && view.pc == Idle(outcome)
    {
      start, answers, view := BeginExchange(view, x), [], BeginExchange(view, x);
      outcome := None;
      while true
        invariant Valid() && start == BeginExchange(old(view), x)
        invariant view == Retry(Fields(), x)
        decreases |script|
      {
        if stream.None? {
          var blocked, ok := AcceptResume(x, x.observation.step);
          if blocked { return None; }
          if !ok { return Some(Aborted); }
        }
        var blocked, result := Converse(x);
        if blocked { return None; }
        match result
        case Success(action) =>
          return Some(Completed(action));
        case Failure(fault) =>
          if fault.Disconnected? {
            stream := None;
            var _, _ := EmitLifecycle(x.observation.step, SessionDetached, None);
          } else if !fault.InvalidData? {
            return Some(Aborted);
          }
      }
    }

    /** `LockstepSession::emit`: an error of the write is ignored, and the event is lost. */
    method Emit(tick: nat, kind: LifecycleKind, related: Option<nat>) returns (blocked: bool)
      requires Valid() && AtRest(view)
      modifies this
      ensures Tracking() && start == BeginEmit(old(view), tick, kind, related)
      ensures !blocked ==> Valid() && view.pc == Idle(None)
    {
      start, answers, view := BeginEmit(view, tick, kind, related), [], BeginEmit(view, tick, kind, related);
      var ok;
      blocked, ok := EmitLifecycle(tick, kind, related);
    }
  }
}
