/**
 Reproduction, and the history of outcomes that the external evaluator reads.
 */
module Lineage {
  import opened Wrappers
  import opened Energy
  import opened World

  const REPRODUCTION_ENERGY_THRESHOLD := 32.0
  const REPRODUCTION_SURPLUS_SECONDS := 5.0
  const REPRODUCTION_ENERGY_COST := 12.0
  const REPRODUCTION_MASS_COST := 1.5
  const REPRODUCTION_COOLDOWN_SECONDS := 20.0

  /** Whether the controller will have a child, and what the random stream makes of it. */
  datatype BirthDraw = BirthDraw(entity: Entity, consents: bool, yieldAt: real, frequency: real, dx: real, dy: real)

  // ---------------------------------------------------------------- reproduction

  function Rested(a: Agent): real {
    Max(a.birthCooldown - FIXED_DT, 0.0)
  }

  predicate Eligible(n: Node)
    requires n.agent.Some?
  {
    && n.account.energy >= REPRODUCTION_ENERGY_THRESHOLD
    && n.mass >= REPRODUCTION_MASS_COST + 0.5
    && Rested(n.agent.value) <= 0.0
  }

  predicate Ripe(n: Node)
    requires n.agent.Some?
  {
    Eligible(n) && n.agent.value.surplus + FIXED_DT >= REPRODUCTION_SURPLUS_SECONDS
  }

  function Paced(n: Node, surplus: real, cooldown: real): Node
    requires n.agent.Some?
  {
    n.(agent := Some(n.agent.value.(surplus := surplus, birthCooldown := cooldown)))
  }

  function Parent(n: Node): Node
    requires n.agent.Some?
  {
    Paced(n.(account := DebitedExact(n.account, Offspring, Finite(REPRODUCTION_ENERGY_COST)),
             mass := n.mass - REPRODUCTION_MASS_COST),
          0.0, REPRODUCTION_COOLDOWN_SECONDS)
  }

  function Child(n: Node, x: BirthDraw): Node
    requires n.agent.Some?
  {
    var yieldAt := Max(x.yieldAt, 1.0);
    Node(Account(REPRODUCTION_ENERGY_COST, BLANK), REPRODUCTION_ENERGY_COST, REPRODUCTION_MASS_COST, yieldAt, yieldAt,
         0.0, 0.6, {AgentTag, ClampCapable, OscillatorTag}, n.x + x.dx, n.y + x.dy, None, false,
         Some(Max(Min(x.frequency, 16.0), -16.0)),
         Some(Agent(UNCLAMPED, 0.0, 0.0, 0.0, AtMost(U32_MAX, n.agent.value.generation + 1))))
  }

  function ReproduceOne(w: World, x: BirthDraw): World {
    if !IsAgent(w, x.entity) then w
    else
      var n := w.nodes[x.entity];
      var a := n.agent.value;
      if !Eligible(n) then SetNode(w, x.entity, Paced(n, 0.0, Rested(a)))
      else if !Ripe(n) then SetNode(w, x.entity, Paced(n, a.surplus + FIXED_DT, Rested(a)))
      else if !x.consents then SetNode(w, x.entity, Paced(n, 0.0, REPRODUCTION_COOLDOWN_SECONDS))
      else Spawn(SetNode(w, x.entity, Parent(n)), Child(n, x))
  }

  function ReproduceAll(w: World, xs: seq<BirthDraw>): World {
    if xs == [] then w else ReproduceOne(ReproduceAll(w, xs[..|xs| - 1]), xs[|xs| - 1])
  }

  lemma PacedOk(n: Node, surplus: real, cooldown: real)
    requires NodeOk(n) && n.agent.Some?
    ensures var m := Paced(n, surplus, cooldown);
            NodeOk(m) && SameGrip(m, n) && m.mass == n.mass && m.origin == n.origin && m.account == n.account
  {
  }

  lemma BirthOk(n: Node, x: BirthDraw)
    requires NodeOk(n) && n.agent.Some? && Eligible(n)
    ensures NodeOk(Parent(n)) && SameGrip(Parent(n), n) && Parent(n).origin == n.origin
    ensures Newborn(Child(n, x)) && FairGift(n, Parent(n), Child(n, x))
    ensures Parent(n).account.energy >= 0.0 && (CanFragment(n) ==> CanFragment(Parent(n)))
  {
  }

  /** Births keep the world good and its totals, and no queued victim becomes indivisible. */
  lemma ReproduceStep(w: World, x: BirthDraw)
    requires Good(w)
    ensures Step(w, ReproduceOne(w, x))
  {
    StepRefl(w);
    if IsAgent(w, x.entity) {
      var n := w.nodes[x.entity];
      assert NodeOk(n);
      if Ripe(n) && x.consents {
        BirthOk(n, x);
        EndowStep(w, x.entity, Parent(n), Child(n, x));
      } else {
        var m := ReproduceOne(w, x).nodes[x.entity];
        PacedOk(n, m.agent.value.surplus, m.agent.value.birthCooldown);
        SetStep(w, x.entity, m);
      }
    }
  }

  lemma ReproduceDivides(w: World, x: BirthDraw, v: Entity)
    requires Good(w) && Divisible(w, v)
    ensures Divisible(ReproduceOne(w, x), v)
  {
    assert NodeOk(w.nodes[v]);
    if v == x.entity && IsAgent(w, v) && Eligible(w.nodes[v]) {
      BirthOk(w.nodes[v], x);
    }
  }

  lemma ReproduceQueue(w: World, x: BirthDraw)
    requires Good(w) && QueueOk(w)
    ensures ReproduceOne(w, x).fragments == w.fragments && QueueOk(ReproduceOne(w, x))
  {
    forall i | 0 <= i < |w.fragments| ensures Divisible(ReproduceOne(w, x), w.fragments[i].victim) {
      ReproduceDivides(w, x, w.fragments[i].victim);
    }
  }

  lemma {:induction false} BirthsKeepQueue(w: World, xs: seq<BirthDraw>)
    ensures ReproduceAll(w, xs).fragments == w.fragments
  {
    if xs != [] { BirthsKeepQueue(w, xs[..|xs| - 1]); }
  }

  lemma {:induction false} BirthsStep(w: World, xs: seq<BirthDraw>)
    requires Good(w) && QueueOk(w)
    ensures Step(w, ReproduceAll(w, xs)) && QueueOk(ReproduceAll(w, xs))
  {
    if xs == [] {
      StepRefl(w);
    } else {
      BirthsStep(w, xs[..|xs| - 1]);
      var x := ReproduceAll(w, xs[..|xs| - 1]);
      ReproduceStep(x, xs[|xs| - 1]);
      ReproduceQueue(x, xs[|xs| - 1]);
      StepCompose(w, x, ReproduceAll(w, xs));
    }
  }

  // ---------------------------------------------------------------- history

  /** Outcomes of the agents below `n` that were alive when last recorded, and are no more. */
  function NewOutcomes(w: World, n: nat): seq<Outcome> {
    if n == 0 then []
    else
      NewOutcomes(w, n - 1) +
      if n - 1 in w.active && !IsAgent(w, n - 1)
      then [Outcome(n - 1, w.active[n - 1].generation, w.active[n - 1].ledger, AtMost(U32_MAX, w.step))] else []
  }

  function Alive(w: World): set<Entity> {
    set e | e in w.nodes && IsAgent(w, e)
  }

  function RecordOf(n: Node): Recorded
    requires n.agent.Some?
  {
    Recorded(n.agent.value.generation, n.account.ledger)
  }

  function RecordHistory(w: World): World {
    w.(active := map e | e in Alive(w) :: RecordOf(w.nodes[e]),
       completed := w.completed + NewOutcomes(w, w.next),
       ever := w.ever + Alive(w))
  }

  predicate Finished(completed: seq<Outcome>, e: Entity) {
    exists i :: 0 <= i < |completed| && completed[i].entity == e
  }

  /**
   Records are of living agents. Every agent that ended a tick alive has a record or exactly
   one outcome, never both.
   */
  ghost predicate RecordsOk(w: World) {
    && w.active.Keys <= Alive(w)
    && (forall i, j | 0 <= i < j < |w.completed| :: w.completed[i].entity != w.completed[j].entity)
    && (forall e: Entity :: e in w.ever <==> e in w.active || Finished(w.completed, e))
    && (forall i | 0 <= i < |w.completed| :: w.completed[i].entity < w.next && !IsAgent(w, w.completed[i].entity))
  }

  /** At the end of a tick, moreover, every living agent has a record. */
  ghost predicate HistoryOk(w: World) {
    RecordsOk(w) && w.active.Keys == Alive(w)
  }

  lemma {:induction false} NewOutcomesAre(w: World, n: nat)
    ensures forall i | 0 <= i < |NewOutcomes(w, n)| ::
              var o := NewOutcomes(w, n)[i];
              && o.entity < n && o.entity in w.active && !IsAgent(w, o.entity) && o.step == AtMost(U32_MAX, w.step)
              && Recorded(o.generation, o.ledger) == w.active[o.entity]
    ensures forall i, j | 0 <= i < j < |NewOutcomes(w, n)| :: NewOutcomes(w, n)[i].entity < NewOutcomes(w, n)[j].entity
  {
    if n > 0 { NewOutcomesAre(w, n - 1); }
  }

  lemma {:induction false} NewOutcomesHave(w: World, n: nat, e: Entity)
    requires e < n && e in w.active && !IsAgent(w, e)
    ensures Finished(NewOutcomes(w, n), e)
  {
    var before, all := NewOutcomes(w, n - 1), NewOutcomes(w, n);
    if e == n - 1 {
      assert all[|before|].entity == e;
    } else {
      NewOutcomesHave(w, n - 1, e);
      FinishedAppend(before, all[|before|..], e);
      assert all == before + all[|before|..];
    }
  }

  lemma FinishedAppend(a: seq<Outcome>, b: seq<Outcome>, e: Entity)
    ensures Finished(a + b, e) <==> Finished(a, e) || Finished(b, e)
  {
    if Finished(a, e) {
      var i :| 0 <= i < |a| && a[i].entity == e;
      assert (a + b)[i].entity == e;
    }
    if Finished(b, e) {
      var i :| 0 <= i < |b| && b[i].entity == e;
      assert (a + b)[|a| + i].entity == e;
    }
  }

  /** What the rest of a tick may do to the agents before it is recorded. */
  ghost predicate Unrecorded(w: World, z: World) {
    && w.next <= z.next && z.active == w.active && z.completed == w.completed && z.ever == w.ever
    && (forall e: Entity | e < w.next && IsAgent(z, e) :: IsAgent(w, e))
  }

  /** Recording a tick after which no agent came back keeps the history exact. */
  lemma RecordKeeps(w: World, z: World)
    requires RecordsOk(w) && Keyed(w) && Keyed(z) && Unrecorded(w, z)
    ensures HistoryOk(RecordHistory(z))
  {
    var r := RecordHistory(z);
    NewOutcomesAre(z, z.next);
    forall e: Entity ensures e in r.ever <==> e in r.active || Finished(r.completed, e) {
      FinishedAppend(z.completed, NewOutcomes(z, z.next), e);
      assert e in r.ever <==> e in w.ever || e in Alive(z);
      if e in w.active && !IsAgent(z, e) { assert e in Alive(w); NewOutcomesHave(z, z.next, e); }
    }
    forall i, j | 0 <= i < j < |r.completed| ensures r.completed[i].entity != r.completed[j].entity {
      if i < |z.completed| <= j { assert r.completed[j].entity in Alive(w); }
    }
    forall i | 0 <= i < |r.completed| ensures r.completed[i].entity < r.next && !IsAgent(r, r.completed[i].entity) {
      if i < |z.completed| { assert !IsAgent(w, z.completed[i].entity); }
    }
  }

  // ---------------------------------------------------------------- the evaluator's view

  datatype Report = Report(alive: bool, entity: Entity, generation: nat, ledger: Ledger, step: nat)

  function Completed(outcomes: seq<Outcome>): seq<Report> {
    if outcomes == [] then []
    else
      var o := outcomes[|outcomes| - 1];
      Completed(outcomes[..|outcomes| - 1]) + [Report(false, o.entity, o.generation, o.ledger, o.step)]
  }

  function Living(w: World, n: nat, step: nat): seq<Report> {
    if n == 0 then []
    else
      Living(w, n - 1, step) +
      if IsAgent(w, n - 1)
      then [Report(true, n - 1, w.nodes[n - 1].agent.value.generation, w.nodes[n - 1].account.ledger, step)] else []
  }

  /** Every outcome, then every living agent. */
  function CollectCompetence(w: World, step: nat): seq<Report> {
    Completed(w.completed) + Living(w, w.next, step)
  }

  predicate Reported(reports: seq<Report>, e: Entity) {
    exists i :: 0 <= i < |reports| && reports[i].entity == e
  }

  lemma {:induction false} CompletedAre(outcomes: seq<Outcome>)
    ensures |Completed(outcomes)| == |outcomes|
    ensures forall i | 0 <= i < |outcomes| ::
              Completed(outcomes)[i] ==
                  Report(false, outcomes[i].entity, outcomes[i].generation, outcomes[i].ledger, outcomes[i].step)
  {
    if outcomes != [] { CompletedAre(outcomes[..|outcomes| - 1]); }
  }

  lemma {:induction false} LivingAre(w: World, n: nat, step: nat)
    ensures forall i | 0 <= i < |Living(w, n, step)| ::
              var r := Living(w, n, step)[i];
              r.alive && r.entity < n && IsAgent(w, r.entity)
                  && Recorded(r.generation, r.ledger) == RecordOf(w.nodes[r.entity])
    ensures forall i, j | 0 <= i < j < |Living(w, n, step)| ::
              Living(w, n, step)[i].entity < Living(w, n, step)[j].entity
    ensures forall e: Entity | e < n && IsAgent(w, e) :: Reported(Living(w, n, step), e)
  {
    if n > 0 {
      LivingAre(w, n - 1, step);
      var before, all := Living(w, n - 1, step), Living(w, n, step);
      forall e: Entity | e < n && IsAgent(w, e) ensures Reported(all, e) {
        if e < n - 1 {
          var i :| 0 <= i < |before| && before[i].entity == e;
          assert all[i].entity == e;
        } else {
          assert all[|before|].entity == e;
        }
      }
    }
  }

  lemma ReportedAre(w: World, step: nat)
    requires HistoryOk(w) && Keyed(w)
    ensures var all := CollectCompetence(w, step);
            forall i | 0 <= i < |all| ::
              && all[i].entity in w.ever
              && (all[i].alive <==> IsAgent(w, all[i].entity))
              && (all[i].alive ==> Recorded(all[i].generation, all[i].ledger) == RecordOf(w.nodes[all[i].entity]))
  {
    CompletedAre(w.completed);
    LivingAre(w, w.next, step);
    var all := CollectCompetence(w, step);
    forall i | 0 <= i < |w.completed| ensures all[i].entity in w.ever && !all[i].alive && !IsAgent(w, all[i].entity) {
      assert all[i] == Completed(w.completed)[i];
      assert Finished(w.completed, w.completed[i].entity);
    }
  }

  lemma ReportedAppend(a: seq<Report>, b: seq<Report>, e: Entity)
    requires Reported(a, e) || Reported(b, e)
    ensures Reported(a + b, e)
  {
    if Reported(a, e) {
      var i :| 0 <= i < |a| && a[i].entity == e;
      assert (a + b)[i].entity == e;
    } else {
      var i :| 0 <= i < |b| && b[i].entity == e;
      assert (a + b)[|a| + i].entity == e;
    }
  }

  lemma AllReported(w: World, step: nat, e: Entity)
    requires HistoryOk(w) && Keyed(w) && e in w.ever
    ensures Reported(CollectCompetence(w, step), e)
  {
    if IsAgent(w, e) {
      LivingAre(w, w.next, step);
    } else {
      var i :| 0 <= i < |w.completed| && w.completed[i].entity == e;
      CompletedAre(w.completed);
      assert Completed(w.completed)[i].entity == e;
    }
    ReportedAppend(Completed(w.completed), Living(w, w.next, step), e);
  }

  /**
   The evaluator sees every agent that ended some tick alive exactly once, as living exactly
   when it is, and nobody else; a living agent with the books it has now.
   */
  lemma CompetenceExactlyOnce(w: World, step: nat)
    requires HistoryOk(w) && Keyed(w)
    ensures var all := CollectCompetence(w, step);
            && (forall i, j | 0 <= i < j < |all| :: all[i].entity != all[j].entity)
            && (forall e: Entity :: Reported(all, e) <==> e in w.ever)
            && (forall i | 0 <= i < |all| ::
                  && (all[i].alive <==> IsAgent(w, all[i].entity))
                  && (all[i].alive ==> Recorded(all[i].generation, all[i].ledger) == RecordOf(w.nodes[all[i].entity])))
  {
    var all := CollectCompetence(w, step);
    ReportedAre(w, step);
    forall e: Entity | e in w.ever ensures Reported(all, e) { AllReported(w, step, e); }
    forall i, j | 0 <= i < j < |all| ensures all[i].entity != all[j].entity {
      CompletedAre(w.completed);
      LivingAre(w, w.next, step);
    }
  }
}
