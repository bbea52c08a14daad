/**
 The frames of a lockstep session, above the byte level: what the server and the
 Python client put on a connection, with JSON payloads as structured values.
 */
module LockstepFrames {
  import opened Wrappers
  import opened Negotiation
  import opened Actions

  /** The part of an observation the session logic reads. */
  datatype Observation = Observation(step: nat, entity: nat, physical: Body)

  datatype Body = Body(energy: real, structure: real, mass: real)

  datatype Extension = Extension(decisionSequence: nat, delta: Option<Body>)

  datatype LifecycleKind =
    | EntityAlive | EntityDied | EntityReproduced | EntityReplaced | WorldTerminated
    | SessionAttached | SessionDetached

  datatype LifecycleEvent = LifecycleEvent(sequence: nat, tick: nat, kind: LifecycleKind, related: Option<nat>)

  /**
   `ticket` is bookkeeping of the model: the position of the action in the client's own
   record of what it sent. No branch of either program reads it.
   */
  datatype Frame =
    | MetadataFrame(metadata: Metadata)
    | LifecycleFrame(event: LifecycleEvent)
    | ObservationFrame(observation: Observation)
    | ExtensionFrame(step: nat, extension: Extension)
    | ActionFrame(target: nat, entity: nat, action: ActionTensor, ticket: nat)
    | ResumeFrame(sessionId: nat, resumeToken: string)

  /**
   Wire grammar of one connection, as an automaton over the frames the server wrote:
   metadata, at least one lifecycle event, then lifecycle events interleaved with
   observations that are each followed at once by their extension.
   */
  datatype Phase = Start | Greeted | Streaming | ExtensionDue(observation: Observation) | Broken

  datatype Scan = Scan(phase: Phase, observations: nat, last: Option<Observation>)

  function ScanFrame(scan: Scan, frame: Frame): Scan {
    match (scan.phase, frame)
    case (Start, MetadataFrame(_)) => scan.(phase := Greeted)
    case (Greeted, LifecycleFrame(_)) => scan.(phase := Streaming)
    case (Streaming, LifecycleFrame(_)) => scan
    case (Streaming, ObservationFrame(o)) => Scan(ExtensionDue(o), scan.observations + 1, Some(o))
    case (ExtensionDue(o), ExtensionFrame(step, _)) =>
      scan.(phase := if step == o.step then Streaming else Broken)
    case _ => scan.(phase := Broken)
  }

  function ScanAll(frames: seq<Frame>): Scan {
    if frames == [] then Scan(Start, 0, None)
    else ScanFrame(ScanAll(frames[..|frames| - 1]), frames[|frames| - 1])
  }

  lemma ScanAppend(frames: seq<Frame>, frame: Frame)
    ensures ScanAll(frames + [frame]) == ScanFrame(ScanAll(frames), frame)
  {
    assert (frames + [frame])[..|frames|] == frames;
  }

  /** A prefix of a well-formed stream is well formed, and knows its latest observation. */
  lemma {:induction false} ScanPrefix(prefix: seq<Frame>, whole: seq<Frame>)
    requires prefix <= whole
    requires ScanAll(whole).phase != Broken
    ensures ScanAll(prefix).phase != Broken
    ensures ScanAll(prefix).observations <= ScanAll(whole).observations
    ensures ScanAll(prefix).observations == ScanAll(whole).observations ==>
              ScanAll(prefix).last == ScanAll(whole).last
    decreases |whole| - |prefix|
  {
    if |prefix| < |whole| {
      var longer := prefix + [whole[|prefix|]];
      assert longer == whole[..|prefix| + 1];
      ScanPrefix(longer, whole);
      ScanAppend(prefix, whole[|prefix|]);
    } else {
      assert prefix == whole;
    }
  }

  /**
   Order of lifecycle sequence numbers. The counter saturates, so two events may share
   a number only when both carry the largest one.
   */
  predicate Precedes(earlier: nat, later: nat) {
    earlier < later || (earlier == U64_MAX && later == U64_MAX)
  }

  function NextSequence(sequence: nat): (next: nat)
    ensures sequence < U64_MAX ==> next == sequence + 1
    ensures sequence >= U64_MAX ==> next == sequence
  {
    if sequence < U64_MAX then sequence + 1 else sequence
  }

  ghost predicate Increasing(events: seq<LifecycleEvent>) {
    forall i, j | 0 <= i < j < |events| :: Precedes(events[i].sequence, events[j].sequence)
  }
}
