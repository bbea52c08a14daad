/**
 The Python client of a lockstep session: an automaton over what it reads, and the class
 whose methods are proved to follow it for everything a peer may send.
 */
module LockstepClient {
  import opened Wrappers
  import opened Negotiation
  import opened Actions
  import opened LockstepFrames

  datatype Decision = Decision(observation: Observation, extension: Extension)

  datatype ClientError = ProtocolError | EndOfFile | SocketError

  datatype Arrival = Incoming(frame: Frame) | Eof

  datatype ClientPc =
    | Ready(error: Option<ClientError>)
    | AwaitingMetadata(expected: Option<Credentials>)
    | AwaitingFrame
    | AwaitingExtension(observation: Observation)

  datatype Credentials = Credentials(sessionId: nat, resumeToken: string, stableAgentId: nat)

  datatype Client = Client(
    stream: Option<nat>, metadata: Option<Metadata>, decision: Option<Decision>,
    lifecycle: seq<LifecycleEvent>, pc: ClientPc)

  function CredentialsOf(m: Metadata): Credentials {
    Credentials(m.sessionId, m.resumeToken, m.stableAgentId)
  }

  predicate ValidEvent(event: LifecycleEvent) {
    && 1 <= event.sequence <= U64_MAX && event.tick <= U64_MAX
    && (event.related.Some? ==> event.related.value <= U64_MAX)
  }

  predicate ValidExtension(extension: Extension) {
    1 <= extension.decisionSequence <= U64_MAX
  }

  /** `_store_metadata` raises unless this holds. */
  predicate Storable(metadata: Option<Metadata>, m: Metadata) {
    ValidMetadata(m) && (metadata.Some? ==> SameSession(metadata.value, m))
  }

  /** An exception while connecting closes the socket; elsewhere it does not. */
  function Raise(c: Client, error: ClientError): Client {
    if c.pc.AwaitingMetadata? then c.(stream := None, pc := Ready(Some(error)))
    else c.(pc := Ready(Some(error)))
  }

  predicate Reading(c: Client) {
    c.stream.Some? && !c.pc.Ready?
  }

  function StoreEvent(c: Client, event: LifecycleEvent): Client {
    if ValidEvent(event) then c.(lifecycle := c.lifecycle + [event]) else Raise(c, ProtocolError)
  }

  /** What one frame, or the end of the stream, does to a client that is reading. */
  function Receive(c: Client, arrival: Arrival): Client
    requires Reading(c)
  {
    if arrival.Eof? then Raise(c, EndOfFile)
    else match (c.pc, arrival.frame)
      case (AwaitingMetadata(expected), MetadataFrame(m)) =>
        if !Storable(c.metadata, m) then Raise(c, ProtocolError)
        else if expected.Some? && CredentialsOf(m) != expected.value then
          Raise(c.(metadata := Some(m)), ProtocolError)
        else c.(metadata := Some(m), pc := Ready(None))
      case (AwaitingMetadata(_), LifecycleFrame(event)) => StoreEvent(c, event)
      case (AwaitingFrame, LifecycleFrame(event)) => StoreEvent(c, event)
      case (AwaitingFrame, MetadataFrame(m)) =>
        if Storable(c.metadata, m) then c.(metadata := Some(m)) else Raise(c, ProtocolError)
      case (AwaitingFrame, ObservationFrame(o)) =>
        if c.metadata.Some? && c.metadata.value.physicalDeltas then c.(pc := AwaitingExtension(o))
        else c.(decision := Some(Decision(o, Extension(0, None))), pc := Ready(None))
      case (AwaitingExtension(o), ExtensionFrame(step, extension)) =>
        if step == o.step && ValidExtension(extension) then
          c.(decision := Some(Decision(o, extension)), pc := Ready(None))
        else Raise(c, ProtocolError)
      case _ => Raise(c, ProtocolError)
  }

  ghost function ReceiveAll(c: Client, arrivals: seq<Arrival>): Client
    decreases |arrivals|
  {
    if arrivals == [] then c
    else
      var before := ReceiveAll(c, arrivals[..|arrivals| - 1]);
      if Reading(before) then Receive(before, arrivals[|arrivals| - 1]) else before
  }

  /** The exceptions a call can end with before it reads anything. */
  datatype CallResult<T> = Blocked | Returned(value: T) | Raised(error: ClientError)

  class LockstepClient {
    var stream: Option<nat>
    var metadata: Option<Metadata>
    var lifecycle: seq<LifecycleEvent>
    var pendingDecision: Option<Decision>
    var inbox: seq<Arrival>

    ghost function View(pc: ClientPc): Client
      reads this
    {
      Client(stream, metadata, pendingDecision, lifecycle, pc)
    }

    constructor (stream: nat, inbox: seq<Arrival>)
      ensures View(AwaitingMetadata(None)) == Client(Some(stream), None, None, [], AwaitingMetadata(None))
      ensures this.inbox == inbox
    {
      this.stream, this.metadata, this.lifecycle, this.pendingDecision := Some(stream), None, [], None;
      this.inbox := inbox;
    }

    method Close()
      modifies this`stream
      ensures stream == None
    {
      stream := None;
    }

    method StoreLifecycle(event: LifecycleEvent) returns (ok: bool)
      modifies this`lifecycle
      ensures ok == ValidEvent(event)
      ensures lifecycle == if ok then old(lifecycle) + [event] else old(lifecycle)
    {
      ok := ValidEvent(event);
      if ok {
        lifecycle := lifecycle + [event];
      }
    }

    method StoreMetadata(m: Metadata) returns (ok: bool)
      modifies this`metadata
      ensures ok == Storable(old(metadata), m)
      ensures metadata == if ok then Some(m) else old(metadata)
    {
      if !ValidMetadata(m) { return false; }
      if metadata.Some? && !SameSession(metadata.value, m) { return false; }
      metadata := Some(m);
      ok := true;
    }

    /** The read loop of `_receive_metadata`, closing the socket when it raises. */
    method ReceiveMetadata(expected: Option<Credentials>) returns (result: CallResult<()>)
      requires stream.Some?
      modifies this
      ensures exists n | 0 <= n <= |old(inbox)| ::
                && inbox == old(inbox)[n..]
                && ReceiveAll(old(View(AwaitingMetadata(expected))), old(inbox)[..n]) ==
                     View(match result
                          case Blocked => AwaitingMetadata(expected)
                          case Returned(_) => Ready(None)
                          case Raised(e) => Ready(Some(e)))
    {
      ghost var n := 0;
      ghost var before := View(AwaitingMetadata(expected));
      ghost var all := inbox;
      while inbox != []
        invariant n <= |all| && inbox == all[n..]
        invariant stream.Some? && ReceiveAll(before, all[..n]) == View(AwaitingMetadata(expected))
        decreases |inbox|
      {
        var arrival := inbox[0];
        inbox := inbox[1..];
        n := n + 1;
        assert all[..n][..n - 1] == all[..n - 1];
        if arrival.Eof? { Close(); return Raised(EndOfFile); }
        match arrival.frame
        case MetadataFrame(m) =>
          var stored := StoreMetadata(m);
          if !stored || (expected.Some? && CredentialsOf(m) != expected.value) {
            Close();
            return Raised(ProtocolError);
          }
          return Returned(());
        case LifecycleFrame(event) =>
          var stored := StoreLifecycle(event);
          if !stored { Close(); return Raised(ProtocolError); }
        case _ =>
          Close();
          return Raised(ProtocolError);
      }
      return Blocked;
    }

    /** A prefix of what arrived has been read, and the client is where it leads to. */
    ghost predicate Consumed(before: Client, all: seq<Arrival>, n: nat, pc: ClientPc)
      reads this
    {
      n <= |all| && inbox == all[n..] && ReceiveAll(before, all[..n]) == View(pc)
    }

    /** How a call that reads for a decision may end there. */
    ghost predicate Ends(result: CallResult<Decision>, pc: ClientPc)
      reads this
    {
      && (result.Blocked? <==> !pc.Ready?)
      && (result.Returned? ==> pc == Ready(None) && pendingDecision == Some(result.value))
      && (result.Raised? ==> pc == Ready(Some(result.error)))
    }

    /** Taking one more arrival is one more step of the automaton. */
    method Take(ghost before: Client, ghost all: seq<Arrival>, ghost n: nat, ghost pc: ClientPc)
      returns (arrival: Arrival)
      requires inbox != [] && stream.Some? && !pc.Ready? && Consumed(before, all, n, pc)
      modifies this`inbox
      ensures n < |all| && arrival == all[n] && inbox == all[n + 1..] && inbox == old(inbox)[1..]
      ensures ReceiveAll(before, all[..n + 1]) == Receive(old(View(pc)), arrival)
    {
      arrival := inbox[0];
      inbox := inbox[1..];
      assert all[..n + 1][..n] == all[..n];
    }

    /** An observation has been read; its extension comes next, if it was negotiated. */
    method ReceiveExtension(observation: Observation, ghost before: Client, ghost all: seq<Arrival>, ghost n: nat)
      returns (result: CallResult<Decision>, ghost m: nat, ghost pc: ClientPc)
      requires stream.Some? && Consumed(before, all, n, AwaitingExtension(observation))
      modifies this
      ensures Consumed(before, all, m, pc) && Ends(result, pc)
    {
      m, pc := n, AwaitingExtension(observation);
      if inbox == [] { return Blocked, m, pc; }
      var arrival := Take(before, all, n, pc);
      m := n + 1;
      if arrival.Eof? { return Raised(EndOfFile), m, Ready(Some(EndOfFile)); }
      pc := Ready(Some(ProtocolError));
      if !arrival.frame.ExtensionFrame? { return Raised(ProtocolError), m, pc; }
      if arrival.frame.step != observation.step { return Raised(ProtocolError), m, pc; }
      if !ValidExtension(arrival.frame.extension) { return Raised(ProtocolError), m, pc; }
      pendingDecision := Some(Decision(observation, arrival.frame.extension));
      return Returned(pendingDecision.value), m, Ready(None);
    }

    method NextDecision() returns (result: CallResult<Decision>)
      modifies this
      ensures old(pendingDecision.Some? || stream.None?) ==>
                result == Raised(ProtocolError) && unchanged(this)
      ensures old(pendingDecision.None? && stream.Some?) ==>
                exists n: nat, pc :: Consumed(old(View(AwaitingFrame)), old(inbox), n, pc) && Ends(result, pc)
    {
      if pendingDecision.Some? || stream.None? { return Raised(ProtocolError); }
      ghost var n := 0;
      ghost var before := View(AwaitingFrame);
      ghost var all := inbox;
      ghost var pc := AwaitingFrame;
      while inbox != []
        invariant stream.Some? && pendingDecision.None? && Consumed(before, all, n, AwaitingFrame)
        decreases |inbox|
      {
        var arrival := Take(before, all, n, AwaitingFrame);
        n := n + 1;
        if arrival.Eof? {
          assert Consumed(before, all, n, Ready(Some(EndOfFile)));
          return Raised(EndOfFile);
        }
        var stored := false;
        match arrival.frame {
          case LifecycleFrame(event) =>
            stored := StoreLifecycle(event);
          case MetadataFrame(m) =>
            stored := StoreMetadata(m);
          case ObservationFrame(observation) =>
            if metadata.Some? && metadata.value.physicalDeltas {
              result, n, pc := ReceiveExtension(observation, before, all, n);
              return;
            }
            pendingDecision := Some(Decision(observation, Extension(0, None)));
            assert Consumed(before, all, n, Ready(None));
            return Returned(pendingDecision.value);
          case _ =>
        }
        if !stored {
          assert Consumed(before, all, n, Ready(Some(ProtocolError)));
          return Raised(ProtocolError);
        }
      }
      return Blocked;
    }

    /** `delivered` is the network's answer to the write; a failed write keeps the decision pending. */
    method SendAction(decision: Decision, action: ActionTensor, ticket: nat, delivered: bool)
      returns (sent: Option<Frame>)
      modifies this`pendingDecision
      ensures sent.Some? <==>
              && old(pendingDecision) == Some(decision) && pendingDecision.None?
              && stream.Some? && AllFinite(action) && delivered
      ensures sent.Some? ==>
                sent.value == ActionFrame(decision.observation.step, decision.observation.entity, action, ticket)
      ensures sent.None? ==> pendingDecision == old(pendingDecision)
    {
      if Some(decision) != pendingDecision || stream.None? || !AllFinite(action) || !delivered { return None; }
      sent := Some(ActionFrame(decision.observation.step, decision.observation.entity, action, ticket));
      pendingDecision := None;
    }

    /**
     A new socket, the resume request, and the metadata again. `reached` and `delivered` are the
     network's answers to connecting and to writing, and `arriving` is what the new peer sends.
     */
    method Reconnect(conn: nat, reached: bool, delivered: bool, arriving: seq<Arrival>)
      returns (resume: Option<Frame>, result: CallResult<()>)
      modifies this
      ensures old(metadata).None? ==> result == Raised(ProtocolError) && resume.None? && unchanged(this)
      ensures old(metadata).Some? && !(reached && delivered) ==>
                && result == Raised(SocketError) && resume.None?
                && View(Ready(None)) == Client(None, old(metadata), None, old(lifecycle), Ready(None))
      ensures old(metadata).Some? && reached && delivered ==>
                && resume == Some(ResumeFrame(old(metadata).value.sessionId, old(metadata).value.resumeToken))
                && var expected := Some(CredentialsOf(old(metadata).value));
                   exists n | 0 <= n <= |arriving| ::
                     && inbox == arriving[n..]
                     && ReceiveAll(Client(Some(conn), old(metadata), None, old(lifecycle), AwaitingMetadata(expected)),
                                   arriving[..n]) ==
                          View(match result
                               case Blocked => AwaitingMetadata(expected)
                               case Returned(_) => Ready(None)
                               case Raised(e) => Ready(Some(e)))
    {
      if metadata.None? { return None, Raised(ProtocolError); }
      var expected := CredentialsOf(metadata.value);
      Close();
      pendingDecision := None;
      if !reached { return None, Raised(SocketError); }
      stream, inbox := Some(conn), arriving;
      if !delivered {
        Close();
        return None, Raised(SocketError);
      }
      resume := Some(ResumeFrame(expected.sessionId, expected.resumeToken));
      result := ReceiveMetadata(Some(expected));
    }
  }
}
