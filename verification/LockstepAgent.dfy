/**
 Action hold: `LockstepAgent::act`, its cadence of exchanges and the deltas it reports.
 */
module LockstepAgent {
  import opened Wrappers
  import opened Actions
  import opened LockstepFrames
  import opened LockstepServer

  datatype Agent = Agent(held: ActionTensor, remaining: nat, decisions: nat, previous: Option<Body>)

  const FRESH_AGENT := Agent(NO_ACTION, 0, 0, None)

  function Minus(a: Body, b: Body): Body {
    Body(a.energy - b.energy, a.structure - b.structure, a.mass - b.mass)
  }

  function Plus(a: Body, b: Body): Body {
    Body(a.energy + b.energy, a.structure + b.structure, a.mass + b.mass)
  }

  /** The exchange a decision tick performs. */
  function Announced(deltas: bool, a: Agent, o: Observation): Exchange {
    Exchange(o, Extension(NextSequence(a.decisions),
                          if deltas && a.previous.Some? then Some(Minus(o.physical, a.previous.value)) else None))
  }

  /** An exchange that fails is played as the default action. */
  function Played(outcome: Outcome): ActionTensor {
    if outcome.Completed? then outcome.action else NO_ACTION
  }

  /** Nothing is pushed, turned, clamped, built or sounded. */
  predicate Passive(a: ActionTensor) {
    && a.force.x == Finite(0.0) && a.force.y == Finite(0.0) && a.force.length == 0.0 && a.torque == Finite(0.0)
    && a.clamp == Finite(0.0) && a.fabricate == Finite(0.0) && a.frequency == Finite(0.0) && a.phase == Finite(0.0)
  }

  /**
   What the world is shown for an exchange: the agreed action itself on the call that decides, and
   without its fabrication trigger on those that repeat it; a passive one if the exchange failed.
   */
  predicate Shows(outcome: Outcome, action: ActionTensor, decides: bool) {
    match outcome
    case Completed(agreed) => action == if decides then agreed else agreed.(fabricate := Finite(0.0))
    case Aborted => Passive(action)
  }

  function Held(a: Agent): ActionTensor {
    a.held.(fabricate := Finite(0.0))
  }

  function Decide(a: Agent, o: Observation, outcome: Outcome, hold: nat): Agent
    requires hold > 0
  {
    Agent(Played(outcome), hold - 1, NextSequence(a.decisions), Some(o.physical))
  }

  class LockstepAgent {
    const transport: SessionTransport
    const deltas: bool
    var heldAction: ActionTensor
    var remainingTicks: nat
    var decisionSequence: nat
    var previousPhysical: Option<Body>

    constructor (transport: SessionTransport, deltas: bool)
      ensures this.transport == transport && this.deltas == deltas && View() == FRESH_AGENT
    {
      this.transport, this.deltas := transport, deltas;
      this.heldAction, this.remainingTicks, this.decisionSequence, this.previousPhysical := NO_ACTION, 0, 0, None;
    }

    ghost function View(): Agent
      reads this
    {
      Agent(heldAction, remainingTicks, decisionSequence, previousPhysical)
    }

    function Hold(): (hold: nat)
      ensures hold > 0 && (hold == transport.config.physicsTicks || (transport.config.physicsTicks == 0 && hold == 1))
    {
      if transport.config.physicsTicks > 1 then transport.config.physicsTicks else 1
    }

    /**
     A held tick repeats the last action without touching the transport; a decision tick
     runs one exchange. No action is returned while the exchange is still blocked.
     */
    method Act(o: Observation) returns (action: Option<ActionTensor>)
      requires transport.Valid() && AtRest(transport.view)
      modifies this, transport
      ensures old(remainingTicks) > 0 ==>
                && action == Some(old(heldAction).(fabricate := Finite(0.0))) && unchanged(transport)
                && View() == old(View()).(remaining := old(remainingTicks) - 1)
      ensures old(remainingTicks) == 0 ==>
                && transport.Tracking()
                && transport.start == BeginExchange(old(transport.view), Announced(deltas, old(View()), o))
      ensures old(remainingTicks) == 0 && action.Some? ==>
                && transport.Valid() && AtRest(transport.view) && transport.view.pc.outcome.Some?
                && Shows(transport.view.pc.outcome.value, action.value, true) && heldAction == action.value
                && View() == Decide(old(View()), o, transport.view.pc.outcome.value, Hold())
    {
      if remainingTicks > 0 {
        remainingTicks := remainingTicks - 1;
        return Some(heldAction.(fabricate := Finite(0.0)));
      }
      var delta := if previousPhysical.Some? then Some(Minus(o.physical, previousPhysical.value)) else None;
      previousPhysical := Some(o.physical);
      decisionSequence := if decisionSequence < U64_MAX then decisionSequence + 1 else decisionSequence;
      var outcome := transport.RunExchange(Exchange(o, Extension(decisionSequence, if deltas then delta else None)));
      if outcome.None? { return None; }
      heldAction := if outcome.value.Completed? then outcome.value.action else NO_ACTION;
      remainingTicks := Hold() - 1;
      action := Some(heldAction);
    }
  }

  // ---------------------------------------------------------------- whole runs

  /** One call: what the world shows, and how the exchange ends if this call performs one. */
  datatype Tick = Tick(observation: Observation, outcome: Outcome)

  datatype Transcript = Transcript(agent: Agent, exchanges: seq<Exchange>, actions: seq<ActionTensor>)

  function Play(hold: nat, deltas: bool, ticks: seq<Tick>): Transcript
    requires hold > 0
  {
    if ticks == [] then Transcript(FRESH_AGENT, [], [])
    else
      var t := Play(hold, deltas, ticks[..|ticks| - 1]);
      var tick := ticks[|ticks| - 1];
      if t.agent.remaining > 0 then
        t.(agent := t.agent.(remaining := t.agent.remaining - 1), actions := t.actions + [Held(t.agent)])
      else
        Transcript(Decide(t.agent, tick.observation, tick.outcome, hold),
                   t.exchanges + [Announced(deltas, t.agent, tick.observation)],
                   t.actions + [Played(tick.outcome)])
  }

  lemma Multiple(a: int, k: nat)
    requires a >= 1
    ensures a * k >= k
  {
  }

  lemma DivisionIsUnique(n: nat, k: nat, quotient: nat, remainder: nat)
    requires k > 0 && n == quotient * k + remainder && remainder < k
    ensures n / k == quotient && n % k == remainder
  {
    var q, r := n / k, n % k;
    assert n == q * k + r && 0 <= r < k;
    assert (q - quotient) * k == remainder - r;
    if q > quotient {
      Multiple(q - quotient, k);
    } else if quotient > q {
      Multiple(quotient - q, k);
    }
  }

  /** Exchanges happen on every `hold`-th call, the first included: ceil(N / hold) in N calls. */
  lemma {:induction false} Cadence(hold: nat, deltas: bool, ticks: seq<Tick>)
    requires hold > 0
    ensures var t := Play(hold, deltas, ticks);
            && t.agent.remaining < hold
            && |t.exchanges| * hold == |ticks| + t.agent.remaining
            && |t.exchanges| == (|ticks| + hold - 1) / hold
            && (t.agent.remaining == 0 <==> |ticks| % hold == 0)
  {
    var t := Play(hold, deltas, ticks);
    if ticks != [] {
      Cadence(hold, deltas, ticks[..|ticks| - 1]);
      var before := Play(hold, deltas, ticks[..|ticks| - 1]);
      if before.agent.remaining == 0 {
        assert |t.exchanges| * hold == |before.exchanges| * hold + hold;
      }
    }
    assert |t.exchanges| * hold == |ticks| + t.agent.remaining;
    DivisionIsUnique(|ticks| + hold - 1, hold, |t.exchanges|, hold - 1 - t.agent.remaining);
    if t.agent.remaining == 0 {
      DivisionIsUnique(|ticks|, hold, |t.exchanges|, 0);
    } else {
      assert (|t.exchanges| - 1) * hold == |t.exchanges| * hold - hold;
      DivisionIsUnique(|ticks|, hold, |t.exchanges| - 1, hold - t.agent.remaining);
    }
  }

  /** The call that decided what the latest call returned. */
  lemma {:induction false} LatestDecision(hold: nat, deltas: bool, ticks: seq<Tick>)
    requires hold > 0 && ticks != []
    ensures var t := Play(hold, deltas, ticks);
            var last := |ticks| - 1;
            var decision := last - (hold - 1 - t.agent.remaining);
            && t.agent.remaining < hold && 0 <= decision <= last && |t.actions| == |ticks|
            && Shows(ticks[decision].outcome, t.agent.held, true)
            && t.actions[last] == if decision == last then t.agent.held else t.agent.held.(fabricate := Finite(0.0))
  {
    var front := ticks[..|ticks| - 1];
    if front != [] {
      LatestDecision(hold, deltas, front);
    }
  }

  lemma {:induction false} EarlierActions(hold: nat, deltas: bool, ticks: seq<Tick>, n: nat)
    requires hold > 0 && n <= |ticks|
    ensures |Play(hold, deltas, ticks).actions| == |ticks|
    ensures Play(hold, deltas, ticks[..n]).actions == Play(hold, deltas, ticks).actions[..n]
    decreases |ticks|
  {
    if n < |ticks| {
      var front := ticks[..|ticks| - 1];
      EarlierActions(hold, deltas, front, n);
      assert front[..n] == ticks[..n];
    } else {
      assert ticks[..n] == ticks;
      if ticks != [] {
        EarlierActions(hold, deltas, ticks[..|ticks| - 1], |ticks| - 1);
      }
    }
  }

  lemma PlaceInBlock(exchanges: nat, hold: nat, calls: nat, remaining: nat)
    requires exchanges * hold == calls + remaining && remaining < hold && calls > 0
    ensures (calls - 1) % hold == hold - 1 - remaining
  {
    assert exchanges >= 1;
    assert (exchanges - 1) * hold == exchanges * hold - hold;
    DivisionIsUnique(calls - 1, hold, exchanges - 1, hold - 1 - remaining);
  }

  /**
   What every call returns: on the calls that exchange, every `hold`-th one, the agreed
   action; on every other call, the action of the latest exchange with the fabrication
   trigger off; a passive action all along if that exchange failed.
   */
  lemma HeldActions(hold: nat, deltas: bool, ticks: seq<Tick>, i: nat)
    requires hold > 0 && i < |ticks|
    ensures |Play(hold, deltas, ticks).actions| == |ticks|
    ensures Shows(ticks[i - i % hold].outcome, Play(hold, deltas, ticks).actions[i], i % hold == 0)
  {
    var upTo := ticks[..i + 1];
    var t := Play(hold, deltas, upTo);
    EarlierActions(hold, deltas, ticks, i + 1);
    LatestDecision(hold, deltas, upTo);
    Cadence(hold, deltas, upTo);
    PlaceInBlock(|t.exchanges|, hold, i + 1, t.agent.remaining);
  }

  function SumOfDeltas(exchanges: seq<Exchange>): Body {
    if exchanges == [] then Body(0.0, 0.0, 0.0)
    else
      var rest := SumOfDeltas(exchanges[..|exchanges| - 1]);
      var delta := exchanges[|exchanges| - 1].extension.delta;
      if delta.Some? then Plus(rest, delta.value) else rest
  }

  lemma SumAppend(exchanges: seq<Exchange>, x: Exchange)
    ensures SumOfDeltas(exchanges + [x]) ==
            if x.extension.delta.Some? then Plus(SumOfDeltas(exchanges), x.extension.delta.value)
            else SumOfDeltas(exchanges)
  {
  }

  /** One more change after a change. */
  lemma Chained(first: Body, last: Body, now: Body)
    ensures Plus(Minus(last, first), Minus(now, last)) == Minus(now, first)
  {
  }

  /** The reported deltas add up to the whole change from the first decision to the last. */
  lemma {:induction false} DeltasTelescope(hold: nat, ticks: seq<Tick>)
    requires hold > 0 && ticks != []
    ensures var t := Play(hold, true, ticks);
            && t.exchanges != []
            && t.agent.previous == Some(t.exchanges[|t.exchanges| - 1].observation.physical)
            && SumOfDeltas(t.exchanges) ==
               Minus(t.exchanges[|t.exchanges| - 1].observation.physical, t.exchanges[0].observation.physical)
  {
    var front := ticks[..|ticks| - 1];
    var before := Play(hold, true, front);
    SumAppend(before.exchanges, Announced(true, before.agent, ticks[|ticks| - 1].observation));
    if front != [] {
      DeltasTelescope(hold, front);
      if before.agent.remaining == 0 {
        Chained(before.exchanges[0].observation.physical, before.agent.previous.value,
                ticks[|ticks| - 1].observation.physical);
      }
    }
  }

  // ---------------------------------------------------------------- what the exchanges carry

  lemma {:induction false} EarlierExchanges(hold: nat, deltas: bool, ticks: seq<Tick>)
    requires hold > 0 && ticks != []
    ensures var front, t := Play(hold, deltas, ticks[..|ticks| - 1]), Play(hold, deltas, ticks);
            front.exchanges <= t.exchanges && |t.exchanges| <= |front.exchanges| + 1
  {
  }

  /** The agent knows how many exchanges there were, and what its body was at the latest. */
  lemma {:induction false} Remembers(hold: nat, deltas: bool, ticks: seq<Tick>)
    requires hold > 0
    ensures var t := Play(hold, deltas, ticks);
            && t.agent.decisions == AtMost(U64_MAX, |t.exchanges|)
            && t.agent.previous ==
               if t.exchanges == [] then None else Some(t.exchanges[|t.exchanges| - 1].observation.physical)
  {
    if ticks != [] { Remembers(hold, deltas, ticks[..|ticks| - 1]); }
  }

  /** The change of a body from one decision to the next. */
  function Change(before: Observation, now: Observation): Body {
    Body(now.physical.energy - before.physical.energy, now.physical.structure - before.physical.structure,
         now.physical.mass - before.physical.mass)
  }

  /**
   Exchange by exchange: the k-th tells the client what the world shows on call k * hold, under
   the number k + 1, with what has changed since the one before, if that was negotiated.
   */
  lemma {:induction false} ExchangeContents(hold: nat, deltas: bool, ticks: seq<Tick>, k: nat)
    requires hold > 0 && k < |Play(hold, deltas, ticks).exchanges|
    ensures var xs := Play(hold, deltas, ticks).exchanges;
            && k * hold < |ticks|
            && xs[k].observation == ticks[k * hold].observation
            && xs[k].extension.decisionSequence == AtMost(U64_MAX, k + 1)
            && xs[k].extension.delta ==
               if deltas && k > 0 then Some(Change(xs[k - 1].observation, xs[k].observation)) else None
  {
    if ticks != [] {
      var front := ticks[..|ticks| - 1];
      var before := Play(hold, deltas, front);
      EarlierExchanges(hold, deltas, ticks);
      Remembers(hold, deltas, front);
      if k < |before.exchanges| {
        ExchangeContents(hold, deltas, front, k);
      } else {
        Cadence(hold, deltas, front);
        assert k * hold == |front|;
      }
    }
  }

  // ---------------------------------------------------------------- the program, call after call

  /** The transport has set out on that exchange. */
  predicate Begins(start: Server, x: Exchange) {
    start.pc == Accepting(x) || start.pc == WritingObservation(x)
  }

  /** One exchange as the transport performed it: from where, on what answers, and to what end. */
  datatype Talk = Talk(start: Server, answers: seq<Reply>, end: Server)

  ghost predicate Performed(talk: Talk, x: Exchange, outcome: Outcome) {
    && Wired(talk.start) && Accepts(talk.start, talk.answers) && FeedAll(talk.start, talk.answers) == talk.end
    && Begins(talk.start, x) && talk.end.pc == Idle(Some(outcome))
  }

  ghost predicate PerformedAt(talk: Talk, x: Exchange, hold: nat, ticks: seq<Tick>, k: nat) {
    k * hold < |ticks| && Performed(talk, x, ticks[k * hold].outcome)
  }

  /** These exchanges, one every `hold` calls, each performed when its call came. */
  ghost predicate TalkedOver(talks: seq<Talk>, xs: seq<Exchange>, hold: nat, ticks: seq<Tick>) {
    |talks| == |xs| && forall k | 0 <= k < |talks| :: PerformedAt(talks[k], xs[k], hold, ticks, k)
  }

  /** The exchanges of a transcript. */
  ghost predicate Talked(talks: seq<Talk>, hold: nat, deltas: bool, ticks: seq<Tick>)
    requires hold > 0
  {
    TalkedOver(talks, Play(hold, deltas, ticks).exchanges, hold, ticks)
  }

  lemma TalkedStill(talks: seq<Talk>, xs: seq<Exchange>, hold: nat, ticks: seq<Tick>, tick: Tick)
    requires TalkedOver(talks, xs, hold, ticks)
    ensures TalkedOver(talks, xs, hold, ticks + [tick])
  {
    forall k | 0 <= k < |talks| ensures PerformedAt(talks[k], xs[k], hold, ticks + [tick], k) {
      assert PerformedAt(talks[k], xs[k], hold, ticks, k);
      assert (ticks + [tick])[k * hold] == ticks[k * hold];
    }
  }

  lemma TalkedMore(talks: seq<Talk>, xs: seq<Exchange>, hold: nat, ticks: seq<Tick>, tick: Tick, talk: Talk,
                   x: Exchange)
    requires TalkedOver(talks, xs, hold, ticks) && Performed(talk, x, tick.outcome) && |talks| * hold == |ticks|
    ensures TalkedOver(talks + [talk], xs + [x], hold, ticks + [tick])
  {
    TalkedStill(talks, xs, hold, ticks, tick);
    assert PerformedAt(talk, x, hold, ticks + [tick], |talks|);
  }

  lemma PlayNext(hold: nat, deltas: bool, ticks: seq<Tick>, tick: Tick)
    requires hold > 0
    ensures var t := Play(hold, deltas, ticks);
            Play(hold, deltas, ticks + [tick]).exchanges ==
            t.exchanges + if t.agent.remaining > 0 then [] else [Announced(deltas, t.agent, tick.observation)]
  {
    assert (ticks + [tick])[..|ticks|] == ticks;
  }

  lemma TalkedNext(talks: seq<Talk>, hold: nat, deltas: bool, ticks: seq<Tick>, tick: Tick, talk: Talk)
    requires hold > 0 && Talked(talks, hold, deltas, ticks)
    requires var a := Play(hold, deltas, ticks).agent;
             a.remaining == 0 ==> Performed(talk, Announced(deltas, a, tick.observation), tick.outcome)
    ensures var held := Play(hold, deltas, ticks).agent.remaining > 0;
            Talked(if held then talks else talks + [talk], hold, deltas, ticks + [tick])
  {
    var t := Play(hold, deltas, ticks);
    PlayNext(hold, deltas, ticks, tick);
    if t.agent.remaining > 0 {
      TalkedStill(talks, t.exchanges, hold, ticks, tick);
      assert t.exchanges + [] == t.exchanges;
    } else {
      Cadence(hold, deltas, ticks);
      TalkedMore(talks, t.exchanges, hold, ticks, tick, talk, Announced(deltas, t.agent, tick.observation));
    }
  }

  /**
   Calling `Act` again and again is `Play`: the calls that return give its actions, and the
   transport performs its exchanges, one after another, each on the call it belongs to. So what
   the world is shown on a call is what the exchange of its block came to.
   */
  method ActAll(agent: LockstepAgent, observations: seq<Observation>)
    returns (actions: seq<ActionTensor>, ghost ticks: seq<Tick>, ghost talks: seq<Talk>)
    requires agent.View() == FRESH_AGENT && agent.transport.Valid() && AtRest(agent.transport.view)
    modifies agent, agent.transport
    ensures |actions| == |ticks| <= |observations|
    ensures forall i | 0 <= i < |ticks| :: ticks[i].observation == observations[i]
    ensures var t := Play(agent.Hold(), agent.deltas, ticks);
            actions == t.actions && (|actions| == |observations| ==> agent.View() == t.agent)
    ensures Talked(talks, agent.Hold(), agent.deltas, ticks)
    ensures forall i | 0 <= i < |actions| :: i / agent.Hold() < |talks| &&
              Ended(talks[i / agent.Hold()].end, actions[i], i % agent.Hold() == 0)
  {
    actions, ticks, talks := [], [], [];
    while |actions| < |observations|
      invariant |actions| == |ticks| <= |observations|
      invariant forall i | 0 <= i < |ticks| :: ticks[i].observation == observations[i]
      invariant agent.transport.Valid() && AtRest(agent.transport.view)
      invariant var t := Play(agent.Hold(), agent.deltas, ticks); actions == t.actions && agent.View() == t.agent
      invariant Talked(talks, agent.Hold(), agent.deltas, ticks)
    {
      ghost var held := agent.remainingTicks > 0;
      var observation := observations[|actions|];
      var action := agent.Act(observation);
      if action.None? { break; }
      ghost var talk := Talk(agent.transport.start, agent.transport.answers, agent.transport.view);
      ghost var outcome := if held then Aborted else agent.transport.view.pc.outcome.value;
      TalkedNext(talks, agent.Hold(), agent.deltas, ticks, Tick(observation, outcome), talk);
      assert (ticks + [Tick(observation, outcome)])[..|ticks|] == ticks;
      if !held { talks := talks + [talk]; }
      ticks := ticks + [Tick(observation, outcome)];
      actions := actions + [action.value];
    }
    AllShown(talks, agent.Hold(), agent.deltas, ticks);
  }

  /** What the exchange came to is what the world is shown. */
  predicate Ended(end: Server, action: ActionTensor, decides: bool) {
    end.pc.Idle? && end.pc.outcome.Some? && Shows(end.pc.outcome.value, action, decides)
  }

  lemma AllShown(talks: seq<Talk>, hold: nat, deltas: bool, ticks: seq<Tick>)
    requires hold > 0 && Talked(talks, hold, deltas, ticks)
    ensures |Play(hold, deltas, ticks).actions| == |ticks|
    ensures forall i | 0 <= i < |ticks| :: i / hold < |talks| &&
              Ended(talks[i / hold].end, Play(hold, deltas, ticks).actions[i], i % hold == 0)
  {
    EarlierActions(hold, deltas, ticks, |ticks|);
    var t := Play(hold, deltas, ticks);
    forall i | 0 <= i < |ticks|
      ensures i / hold < |talks| && Ended(talks[i / hold].end, t.actions[i], i % hold == 0)
    {
      BlockOf(hold, deltas, ticks, i);
      HeldActions(hold, deltas, ticks, i);
      ShownAt(talks, t.exchanges, hold, ticks, t.actions[i], i);
    }
  }

  lemma ShownAt(talks: seq<Talk>, xs: seq<Exchange>, hold: nat, ticks: seq<Tick>, action: ActionTensor, i: nat)
    requires hold > 0 && i < |ticks| && TalkedOver(talks, xs, hold, ticks)
    requires i / hold < |xs| && i / hold * hold == i - i % hold
    requires Shows(ticks[i - i % hold].outcome, action, i % hold == 0)
    ensures i / hold < |talks| && Ended(talks[i / hold].end, action, i % hold == 0)
  {
    assert PerformedAt(talks[i / hold], xs[i / hold], hold, ticks, i / hold);
  }

  /** The exchange of a call: there is one for its block, at the first call of the block. */
  lemma BlockOf(hold: nat, deltas: bool, ticks: seq<Tick>, i: nat)
    requires hold > 0 && i < |ticks|
    ensures i / hold < |Play(hold, deltas, ticks).exchanges| && i / hold * hold == i - i % hold
  {
    var t := Play(hold, deltas, ticks);
    Cadence(hold, deltas, ticks);
    BlockBefore(i, hold, |t.exchanges|, |ticks| + t.agent.remaining);
  }

  /** A call lies in the block of an exchange. */
  lemma BlockBefore(i: nat, hold: nat, exchanges: nat, calls: nat)
    requires hold > 0 && exchanges * hold == calls && i < calls
    ensures i / hold < exchanges && i / hold * hold == i - i % hold
  {
    var q, r := i / hold, i % hold;
    assert i == q * hold + r;
    if q >= exchanges { Scaled(exchanges, q, hold); }
  }

  lemma Scaled(a: nat, b: nat, k: nat)
    requires a <= b
    ensures a * k <= b * k
  {
  }
}
