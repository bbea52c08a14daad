/**
 How often, at most, one agent can clamp, fabricate and give birth over whole runs: the
 cooldowns it carries hold through every system of every tick.
 */
module Rates {
  import opened Wrappers
  import opened Energy
  import opened World
  import opened Economy
  import opened Actuation
  import opened Lineage
  import opened Failure
  import opened Genesis
  import opened Orders
  import opened Restoration
  import opened Simulation

  /** Each agent is commanded at most once, and considered for reproduction at most once. */
  ghost predicate Orderly(t: Circumstances) {
    && VisitsOnce(t.exposures)
    && (forall i, j | 0 <= i < j < |t.commands| :: t.commands[i].entity != t.commands[j].entity)
    && (forall i, j | 0 <= i < j < |t.births| :: t.births[i].entity != t.births[j].entity)
  }

  /** The node is gone for good, or is what it was as far as pace and investments go. */
  predicate Unhurried(w: World, z: World, e: Entity) {
    e in z.nodes ==>
      && e in w.nodes
      && z.nodes[e].account.ledger.invested == w.nodes[e].account.ledger.invested
      && (IsAgent(z, e) ==> z.nodes[e].agent == w.nodes[e].agent)
  }

  /** The hand is empty, and has at least `rest` seconds to cool. */
  predicate Resting(w: World, e: Entity, rest: real) {
    Held(w, e).None? && (IsAgent(w, e) ==> GripOf(w, e).cooldown >= rest)
  }

  /** Nothing more was fabricated, and at least `rest` seconds remain. */
  predicate Unbuilt(w: World, e: Entity, rest: real, invested: real) {
    e in w.nodes ==>
      && w.nodes[e].account.ledger.invested.fabrication == invested
      && (IsAgent(w, e) ==> w.nodes[e].agent.value.fabricate >= rest)
  }

  /** No child for `ticks` ticks: cooling down, then gathering a surplus. */
  predicate Barren(w: World, e: Entity, ticks: nat, invested: real) {
    e in w.nodes ==>
      && w.nodes[e].account.ledger.invested.offspring == invested
      && (IsAgent(w, e) ==>
            && w.nodes[e].agent.value.birthCooldown >= 20.0 - ticks as real / 60.0
            && w.nodes[e].agent.value.surplus <= Max(0.0, (ticks - 1199) as real / 60.0))
  }

  lemma UnhurriedCompose(w: World, x: World, z: World, e: Entity)
    requires Unhurried(w, x, e) && Unhurried(x, z, e)
    ensures Unhurried(w, z, e)
  {
  }

  lemma UnhurriedRests(w: World, z: World, e: Entity, rest: real)
    requires Unhurried(w, z, e) && Resting(w, e, rest)
    ensures Resting(z, e, rest)
  {
  }

  lemma UnhurriedBuilds(w: World, z: World, e: Entity, rest: real, invested: real)
    requires Unhurried(w, z, e) && Unbuilt(w, e, rest, invested)
    ensures Unbuilt(z, e, rest, invested)
  {
  }

  lemma UnhurriedBears(w: World, z: World, e: Entity, ticks: nat, invested: real)
    requires Unhurried(w, z, e) && Barren(w, e, ticks, invested)
    ensures Barren(z, e, ticks, invested)
  {
  }

  lemma SteadyUnhurried(w: World, z: World, e: Entity)
    requires Steady(w, z, 0.0)
    ensures Unhurried(w, z, e)
  {
  }

  // ---------------------------------------------------------------- systems that do not hurry anyone

  lemma FedUnhurried(w: World, t: Circumstances, e: Entity)
    requires Good(w) && w.fragments == [] && VisitsOnce(t.exposures)
    ensures Unhurried(w, Nourish(w, t), e)
  {
    var drained := DrainAll(w, t.exposures);
    var fed := HarvestAll(drained, t.contacts);
    DrainKeeps(w, t.exposures);
    SteadyStep(w, drained);
    HarvestSteady(drained, t.contacts);
    SteadyStep(drained, fed);
    DischargesSteady(fed, t.spikes);
    SteadyUnhurried(w, drained, e);
    SteadyUnhurried(drained, fed, e);
    SteadyUnhurried(fed, DischargeAll(fed, t.spikes), e);
  }

  lemma CollideUnhurried(w: World, t: Circumstances, e: Entity)
    requires Good(w) && QueueOk(w)
    ensures Unhurried(w, Collide(w, t), e)
  {
    var moved := Move(w, t.motion);
    var calm := RelaxStress(moved);
    var hit := ImpactAll(calm, t.impacts);
    MoveSteady(w, t.motion);
    SteadyStep(w, moved);
    ShapeKeepsQueue(w, moved);
    RelaxSteady(moved);
    SteadyStep(moved, calm);
    ShapeKeepsQueue(moved, calm);
    ImpactsKeep(calm, t.impacts);
    SteadyStep(calm, hit);
    ConsumeSteady(hit, hit.fragments);
    SteadyUnhurried(w, moved, e);
    SteadyUnhurried(moved, calm, e);
    SteadyUnhurried(calm, hit, e);
    SteadyUnhurried(hit, Collide(w, t), e);
  }

  lemma {:induction false} DeathsUnhurried(w: World, es: seq<Entity>, e: Entity)
    ensures Unhurried(w, DieAll(w, es), e)
  {
    if es != [] { DeathsUnhurried(w, es[..|es| - 1], e); }
  }

  lemma SplitUnhurried(w: World, draws: Entity -> SplitDraw, e: Entity)
    requires Good(w) && QueueOk(w) && e < w.next
    ensures Unhurried(w, RunFragmentation(w, draws), e)
  {
    FragmentationStep(w, draws);
    var z := RunFragmentation(w, draws);
    if Queued(w.fragments, e) {
      var i :| 0 <= i < |w.fragments| && w.fragments[i].victim == e;
      assert e !in z.nodes;
    }
  }

  lemma LossesUnhurried(w: World, t: Circumstances, e: Entity)
    requires Good(w) && QueueOk(w) && e < w.next
    ensures Unhurried(w, RunDeaths(RunFragmentation(Collide(w, t), t.splits)), e)
  {
    var hit := Collide(w, t);
    var split := RunFragmentation(hit, t.splits);
    CollideStep(w, t);
    CollideUnhurried(w, t, e);
    SplitUnhurried(hit, t.splits, e);
    DeathsUnhurried(split.(deaths := []), split.deaths, e);
    UnhurriedCompose(w, hit, split, e);
    UnhurriedCompose(w, split, RunDeaths(split), e);
  }

  lemma ClosingUnhurried(w: World, scatter: Scatter, e: Entity)
    requires Good(w) && e < w.next
    ensures Unhurried(w, RecordHistory(AdvanceClock(StreamChunks(w, scatter))), e)
  {
    if w.step % STREAM_PERIOD == 0 { StreamStep(w, scatter); }
  }

  lemma PostPhysicsUnhurried(w: World, t: Circumstances, e: Entity)
    requires Good(w) && QueueOk(w) && e < w.next
    ensures Unhurried(w, PostPhysics(w, t), e)
  {
    var died := RunDeaths(RunFragmentation(Collide(w, t), t.splits));
    LossesStep(w, t);
    LossesUnhurried(w, t, e);
    ClosingUnhurried(died, t.scatter, e);
    UnhurriedCompose(w, died, PostPhysics(w, t), e);
  }

  // ---------------------------------------------------------------- actuators

  /** Only clamps and accounts, apart from what was invested, may differ. */
  predicate SamePace(w: World, z: World, e: Entity) {
    e in z.nodes ==>
      && e in w.nodes
      && z.nodes[e].account.ledger.invested == w.nodes[e].account.ledger.invested
      && (IsAgent(z, e) ==>
            && IsAgent(w, e)
            && z.nodes[e].agent.value.(clamp := UNCLAMPED) == w.nodes[e].agent.value.(clamp := UNCLAMPED))
  }

  lemma SamePaceBuilds(w: World, z: World, e: Entity, rest: real, invested: real)
    requires SamePace(w, z, e) && Unbuilt(w, e, rest, invested)
    ensures Unbuilt(z, e, rest, invested)
  {
  }

  lemma DriveUnhurried(w: World, agent: Entity, frequency: real, e: Entity)
    requires agent in w.nodes
    ensures Unhurried(w, Drive(w, agent, frequency), e) && SamePace(w, Drive(w, agent, frequency), e)
    ensures Drive(w, agent, frequency).next == w.next
  {
  }

  lemma GripPace(w: World, agent: Entity, clamp: real, nearest: Option<Entity>, e: Entity)
    requires IsAgent(w, agent)
    ensures SamePace(w, Grip(w, agent, clamp, nearest), e) && w.next <= Grip(w, agent, clamp, nearest).next
    ensures e != agent ==> Unhurried(w, Grip(w, agent, clamp, nearest), e)
  {
  }

  lemma StrainPace(w: World, agent: Entity, e: Entity)
    requires IsAgent(w, agent)
    ensures SamePace(w, Strain(w, agent), e) && Strain(w, agent).next == w.next
    ensures e != agent ==> Unhurried(w, Strain(w, agent), e)
  {
  }

  lemma FabricateOther(w: World, agent: Entity, trigger: real, e: Entity)
    requires IsAgent(w, agent) && e != agent && e < w.next
    ensures Unhurried(w, Fabricate(w, agent, trigger), e)
  {
  }

  /** A command acts on its own agent only. */
  lemma ApplyOther(w: World, c: Command, e: Entity)
    requires e != c.entity && e < w.next
    ensures Unhurried(w, ApplyOne(w, c), e)
  {
    if c.entity in w.nodes {
      var driven := Drive(w, c.entity, c.frequency);
      DriveUnhurried(w, c.entity, c.frequency, e);
      if IsAgent(driven, c.entity) {
        var gripped := Grip(driven, c.entity, c.clamp, c.nearest);
        var strained := Strain(gripped, c.entity);
        GripPace(driven, c.entity, c.clamp, c.nearest, e);
        StrainPace(gripped, c.entity, e);
        FabricateOther(strained, c.entity, c.fabricate, e);
        UnhurriedCompose(w, driven, gripped, e);
        UnhurriedCompose(w, gripped, strained, e);
        UnhurriedCompose(w, strained, ApplyOne(w, c), e);
      }
    }
  }

  /** A hand that has more than one step left to cool stays empty, one step closer. */
  lemma GripRests(w: World, e: Entity, clamp: real, nearest: Option<Entity>, rest: real)
    requires IsAgent(w, e) && ClampOk(GripOf(w, e)) && rest > 0.0 && Resting(w, e, rest + FIXED_DT)
    ensures var z := Grip(w, e, clamp, nearest);
            Resting(z, e, rest) && Strain(z, e) == z
  {
  }

  lemma FabricateKeepsGrip(w: World, e: Entity, trigger: real)
    requires IsAgent(w, e) && e < w.next
    ensures GripOf(Fabricate(w, e, trigger), e) == GripOf(w, e)
  {
  }

  lemma ApplyRests(w: World, c: Command, rest: real)
    requires Good(w) && rest > 0.0 && Resting(w, c.entity, rest + FIXED_DT)
    ensures Resting(ApplyOne(w, c), c.entity, rest)
  {
    var e := c.entity;
    if e in w.nodes {
      var driven := Drive(w, e, c.frequency);
      DriveUnhurried(w, e, c.frequency, e);
      DriveStep(w, e, c.frequency);
      UnhurriedRests(w, driven, e, rest + FIXED_DT);
      if IsAgent(driven, e) {
        assert NodeOk(driven.nodes[e]);
        var gripped := Grip(driven, e, c.clamp, c.nearest);
        GripRests(driven, e, c.clamp, c.nearest, rest);
        GripPace(driven, e, c.clamp, c.nearest, e);
        FabricateKeepsGrip(gripped, e, c.fabricate);
      }
    }
  }

  lemma FabricateBuilds(w: World, e: Entity, trigger: real, rest: real, invested: real)
    requires IsAgent(w, e) && e < w.next && rest > 0.0 && Unbuilt(w, e, rest + FIXED_DT, invested)
    ensures Unbuilt(Fabricate(w, e, trigger), e, rest, invested)
  {
  }

  lemma ApplyBuilds(w: World, c: Command, rest: real, invested: real)
    requires Keyed(w) && rest > 0.0 && Unbuilt(w, c.entity, rest + FIXED_DT, invested)
    ensures Unbuilt(ApplyOne(w, c), c.entity, rest, invested)
  {
    var e := c.entity;
    if e in w.nodes {
      var driven := Drive(w, e, c.frequency);
      DriveUnhurried(w, e, c.frequency, e);
      SamePaceBuilds(w, driven, e, rest + FIXED_DT, invested);
      if IsAgent(driven, e) {
        var gripped := Grip(driven, e, c.clamp, c.nearest);
        GripPace(driven, e, c.clamp, c.nearest, e);
        SamePaceBuilds(driven, gripped, e, rest + FIXED_DT, invested);
        StrainPace(gripped, e, e);
        SamePaceBuilds(gripped, Strain(gripped, e), e, rest + FIXED_DT, invested);
        FabricateBuilds(Strain(gripped, e), e, c.fabricate, rest, invested);
      }
    }
  }

  predicate Spared(cs: seq<Command>, e: Entity) {
    forall i | 0 <= i < |cs| :: cs[i].entity != e
  }

  ghost predicate CommandedOnce(cs: seq<Command>) {
    forall i, j | 0 <= i < j < |cs| :: cs[i].entity != cs[j].entity
  }

  lemma {:induction false} ApplyAllOther(w: World, cs: seq<Command>, e: Entity)
    requires Good(w) && e < w.next && Spared(cs, e)
    ensures Unhurried(w, ApplyAll(w, cs), e)
  {
    if cs != [] {
      var front, last := cs[..|cs| - 1], cs[|cs| - 1];
      ApplyAllOther(w, front, e);
      ActuatorsStep(w, front);
      ApplyOther(ApplyAll(w, front), last, e);
      UnhurriedCompose(w, ApplyAll(w, front), ApplyAll(w, cs), e);
    }
  }

  /** All actuators: a command is the only thing that uses up one step of rest. */
  lemma {:induction false} ApplyAllRests(w: World, cs: seq<Command>, e: Entity, rest: real)
    requires Good(w) && e < w.next && CommandedOnce(cs) && rest > 0.0 && Resting(w, e, rest + FIXED_DT)
    ensures Resting(ApplyAll(w, cs), e, rest)
  {
    if cs != [] {
      var front, last := cs[..|cs| - 1], cs[|cs| - 1];
      ActuatorsStep(w, front);
      if last.entity == e {
        ApplyAllOther(w, front, e);
        UnhurriedRests(w, ApplyAll(w, front), e, rest + FIXED_DT);
        ApplyRests(ApplyAll(w, front), last, rest);
      } else {
        ApplyAllRests(w, front, e, rest);
        ApplyOther(ApplyAll(w, front), last, e);
        UnhurriedRests(ApplyAll(w, front), ApplyAll(w, cs), e, rest);
      }
    }
  }

  lemma {:induction false} ApplyAllBuilds(w: World, cs: seq<Command>, e: Entity, rest: real, invested: real)
    requires Good(w) && e < w.next && CommandedOnce(cs) && rest > 0.0 && Unbuilt(w, e, rest + FIXED_DT, invested)
    ensures Unbuilt(ApplyAll(w, cs), e, rest, invested)
  {
    if cs != [] {
      var front, last := cs[..|cs| - 1], cs[|cs| - 1];
      ActuatorsStep(w, front);
      if last.entity == e {
        ApplyAllOther(w, front, e);
        UnhurriedBuilds(w, ApplyAll(w, front), e, rest + FIXED_DT, invested);
        ApplyBuilds(ApplyAll(w, front), last, rest, invested);
      } else {
        ApplyAllBuilds(w, front, e, rest, invested);
        ApplyOther(ApplyAll(w, front), last, e);
        UnhurriedBuilds(ApplyAll(w, front), ApplyAll(w, cs), e, rest, invested);
      }
    }
  }

  // ---------------------------------------------------------------- what births depend on

  /** What has been given to offspring, and the two clocks of reproduction, are the same. */
  predicate SameBrood(w: World, z: World, e: Entity) {
    e in z.nodes ==>
      && e in w.nodes
      && z.nodes[e].account.ledger.invested.offspring == w.nodes[e].account.ledger.invested.offspring
      && (IsAgent(z, e) ==>
            && IsAgent(w, e)
            && z.nodes[e].agent.value.surplus == w.nodes[e].agent.value.surplus
            && z.nodes[e].agent.value.birthCooldown == w.nodes[e].agent.value.birthCooldown)
  }

  lemma BroodCompose(w: World, x: World, z: World, e: Entity)
    requires SameBrood(w, x, e) && SameBrood(x, z, e)
    ensures SameBrood(w, z, e)
  {
  }

  lemma PaceBrood(w: World, z: World, e: Entity)
    requires Unhurried(w, z, e) || SamePace(w, z, e)
    ensures SameBrood(w, z, e)
  {
  }

  lemma FabricateBrood(w: World, e: Entity, trigger: real)
    requires IsAgent(w, e) && e < w.next
    ensures SameBrood(w, Fabricate(w, e, trigger), e)
  {
  }

  lemma ApplyBrood(w: World, c: Command)
    requires Keyed(w)
    ensures SameBrood(w, ApplyOne(w, c), c.entity)
  {
    var e := c.entity;
    if e in w.nodes {
      var driven := Drive(w, e, c.frequency);
      DriveUnhurried(w, e, c.frequency, e);
      PaceBrood(w, driven, e);
      if IsAgent(driven, e) {
        var gripped := Grip(driven, e, c.clamp, c.nearest);
        GripPace(driven, e, c.clamp, c.nearest, e);
        StrainPace(gripped, e, e);
        PaceBrood(driven, gripped, e);
        PaceBrood(gripped, Strain(gripped, e), e);
        FabricateBrood(Strain(gripped, e), e, c.fabricate);
      }
    }
  }

  lemma {:induction false} ApplyAllBrood(w: World, cs: seq<Command>, e: Entity)
    requires Good(w) && e < w.next
    ensures SameBrood(w, ApplyAll(w, cs), e)
  {
    if cs != [] {
      var front, last := cs[..|cs| - 1], cs[|cs| - 1];
      var x := ApplyAll(w, front);
      ApplyAllBrood(w, front, e);
      ActuatorsStep(w, front);
      if last.entity == e {
        ApplyBrood(x, last);
      } else {
        ApplyOther(x, last, e);
        PaceBrood(x, ApplyAll(w, cs), e);
      }
      BroodCompose(w, x, ApplyAll(w, cs), e);
    }
  }

  /** Up to reproduction, a tick touches none of it. */
  lemma FedBrood(w: World, t: Circumstances, e: Entity)
    requires WorldOk(w) && VisitsOnce(t.exposures) && e < w.next
    ensures SameBrood(w, Fed(w, t), e)
  {
    var spent, acted, fed := Spent(w, t), Acted(w, t), Fed(w, t);
    SpentStep(w, t);
    CleanupPace(w, e);
    PaceBrood(w, Cleanup(w), e);
    SteadyUnhurried(Cleanup(w), spent, e);
    PaceBrood(Cleanup(w), spent, e);
    BroodCompose(w, Cleanup(w), spent, e);
    ApplyAllBrood(spent, t.commands, e);
    BroodCompose(w, spent, acted, e);
    ActedStep(w, t);
    FedUnhurried(acted, t, e);
    PaceBrood(acted, fed, e);
    BroodCompose(w, acted, fed, e);
  }

  // ---------------------------------------------------------------- reproduction

  lemma ReproduceOther(w: World, x: BirthDraw, e: Entity)
    requires e != x.entity && e < w.next
    ensures Unhurried(w, ReproduceOne(w, x), e)
    ensures e in w.nodes ==> e in ReproduceOne(w, x).nodes && ReproduceOne(w, x).nodes[e] == w.nodes[e]
  {
  }

  lemma ReproduceRests(w: World, x: BirthDraw, e: Entity, rest: real)
    requires e < w.next && Resting(w, e, rest)
    ensures Resting(ReproduceOne(w, x), e, rest)
  {
  }

  lemma ReproduceBuilds(w: World, x: BirthDraw, e: Entity, rest: real, invested: real)
    requires e < w.next && Unbuilt(w, e, rest, invested)
    ensures Unbuilt(ReproduceOne(w, x), e, rest, invested)
  {
  }

  /** Before its time an agent is not ripe, whatever its energy and its mass. */
  lemma ReproduceBears(w: World, x: BirthDraw, ticks: nat, invested: real)
    requires Keyed(w) && ticks + 1 < 1499 && Barren(w, x.entity, ticks, invested)
    ensures Barren(ReproduceOne(w, x), x.entity, ticks + 1, invested)
  {
  }

  lemma {:induction false} BirthsRest(w: World, xs: seq<BirthDraw>, e: Entity, rest: real)
    requires Good(w) && QueueOk(w) && e < w.next && Resting(w, e, rest)
    ensures Resting(ReproduceAll(w, xs), e, rest)
  {
    if xs != [] {
      BirthsRest(w, xs[..|xs| - 1], e, rest);
      BirthsStep(w, xs[..|xs| - 1]);
      ReproduceRests(ReproduceAll(w, xs[..|xs| - 1]), xs[|xs| - 1], e, rest);
    }
  }

  lemma {:induction false} BirthsBuild(w: World, xs: seq<BirthDraw>, e: Entity, rest: real, invested: real)
    requires Good(w) && QueueOk(w) && e < w.next && Unbuilt(w, e, rest, invested)
    ensures Unbuilt(ReproduceAll(w, xs), e, rest, invested)
  {
    if xs != [] {
      BirthsBuild(w, xs[..|xs| - 1], e, rest, invested);
      BirthsStep(w, xs[..|xs| - 1]);
      ReproduceBuilds(ReproduceAll(w, xs[..|xs| - 1]), xs[|xs| - 1], e, rest, invested);
    }
  }

  predicate Passed(xs: seq<BirthDraw>, e: Entity) {
    forall i | 0 <= i < |xs| :: xs[i].entity != e
  }

  lemma {:induction false} BirthsOther(w: World, xs: seq<BirthDraw>, e: Entity)
    requires Good(w) && QueueOk(w) && e < w.next && Passed(xs, e)
    ensures Unhurried(w, ReproduceAll(w, xs), e)
    ensures e in w.nodes ==> e in ReproduceAll(w, xs).nodes && ReproduceAll(w, xs).nodes[e] == w.nodes[e]
  {
    if xs != [] {
      var front, last := xs[..|xs| - 1], xs[|xs| - 1];
      BirthsOther(w, front, e);
      BirthsStep(w, front);
      ReproduceOther(ReproduceAll(w, front), last, e);
      UnhurriedCompose(w, ReproduceAll(w, front), ReproduceAll(w, xs), e);
    }
  }

  lemma LaterBears(w: World, e: Entity, ticks: nat, invested: real)
    requires Barren(w, e, ticks, invested)
    ensures Barren(w, e, ticks + 1, invested)
  {
  }

  lemma {:induction false} BirthsBear(w: World, xs: seq<BirthDraw>, e: Entity, ticks: nat, invested: real)
    requires Good(w) && QueueOk(w) && e < w.next && ticks + 1 < 1499 && Barren(w, e, ticks, invested)
    requires forall i, j | 0 <= i < j < |xs| :: xs[i].entity != xs[j].entity
    ensures Barren(ReproduceAll(w, xs), e, ticks + 1, invested)
  {
    if xs == [] {
      LaterBears(w, e, ticks, invested);
    } else {
      var front, last := xs[..|xs| - 1], xs[|xs| - 1];
      BirthsStep(w, front);
      if last.entity == e {
        BirthsOther(w, front, e);
        UnhurriedBears(w, ReproduceAll(w, front), e, ticks, invested);
        ReproduceBears(ReproduceAll(w, front), last, ticks, invested);
      } else {
        BirthsBear(w, front, e, ticks, invested);
        ReproduceOther(ReproduceAll(w, front), last, e);
        UnhurriedBears(ReproduceAll(w, front), ReproduceAll(w, xs), e, ticks + 1, invested);
      }
    }
  }

  // ---------------------------------------------------------------- whole ticks

  /** Cleanup takes nothing from a hand but what it should not hold, and then it has to cool. */
  lemma CleanupRests(w: World, e: Entity, rest: real)
    requires Good(w) && rest <= CLAMP_COOLDOWN && Resting(w, e, rest)
    ensures Resting(Cleanup(w), e, rest)
  {
  }

  lemma CleanupPace(w: World, e: Entity)
    ensures SamePace(w, Cleanup(w), e)
  {
  }

  lemma SpentRests(w: World, t: Circumstances, e: Entity, rest: real)
    requires WorldOk(w) && Orderly(t) && e < w.next && 0.0 < rest && Resting(Spent(w, t), e, rest + FIXED_DT)
    ensures Resting(PrePhysics(w, t), e, rest)
  {
    var spent, acted, fed := Spent(w, t), Acted(w, t), Fed(w, t);
    SpentStep(w, t);
    ApplyAllRests(spent, t.commands, e, rest);
    ActedStep(w, t);
    FedUnhurried(acted, t, e);
    UnhurriedRests(acted, fed, e, rest);
    FedStep(acted, t);
    BirthsRest(fed, t.births, e, rest);
  }

  lemma PrePhysicsRests(w: World, t: Circumstances, e: Entity, rest: real)
    requires WorldOk(w) && Orderly(t) && e < w.next
    requires 0.0 < rest && rest + FIXED_DT <= CLAMP_COOLDOWN && Resting(w, e, rest + FIXED_DT)
    ensures Resting(PrePhysics(w, t), e, rest)
  {
    SpentStep(w, t);
    CleanupRests(w, e, rest + FIXED_DT);
    SteadyUnhurried(Cleanup(w), Spent(w, t), e);
    UnhurriedRests(Cleanup(w), Spent(w, t), e, rest + FIXED_DT);
    SpentRests(w, t, e, rest);
  }

  lemma PrePhysicsBuilds(w: World, t: Circumstances, e: Entity, rest: real, invested: real)
    requires WorldOk(w) && Orderly(t) && e < w.next && 0.0 < rest && Unbuilt(w, e, rest + FIXED_DT, invested)
    ensures Unbuilt(PrePhysics(w, t), e, rest, invested)
  {
    var spent, acted, fed := Spent(w, t), Acted(w, t), Fed(w, t);
    SpentStep(w, t);
    CleanupPace(w, e);
    SamePaceBuilds(w, Cleanup(w), e, rest + FIXED_DT, invested);
    SteadyUnhurried(Cleanup(w), spent, e);
    UnhurriedBuilds(Cleanup(w), spent, e, rest + FIXED_DT, invested);
    ApplyAllBuilds(spent, t.commands, e, rest, invested);
    ActedStep(w, t);
    FedUnhurried(acted, t, e);
    UnhurriedBuilds(acted, fed, e, rest, invested);
    FedStep(acted, t);
    BirthsBuild(fed, t.births, e, rest, invested);
  }

  lemma PrePhysicsBears(w: World, t: Circumstances, e: Entity, ticks: nat, invested: real)
    requires WorldOk(w) && Orderly(t) && e < w.next && ticks + 1 < 1499 && Barren(w, e, ticks, invested)
    ensures Barren(PrePhysics(w, t), e, ticks + 1, invested)
  {
    FedBrood(w, t, e);
    ActedStep(w, t);
    FedStep(Acted(w, t), t);
    BirthsBear(Fed(w, t), t.births, e, ticks, invested);
  }

  lemma TickUnhurried(w: World, t: Circumstances, e: Entity)
    requires WorldOk(w) && Orderly(t) && e < w.next
    ensures Unhurried(PrePhysics(w, t), Tick(w, t), e)
  {
    PrePhysicsStep(w, t);
    PostPhysicsUnhurried(PrePhysics(w, t), t, e);
  }

  // ---------------------------------------------------------------- whole runs

  ghost predicate AllOrderly(events: seq<Event>) {
    forall i | 0 <= i < |events| && events[i].Pass? :: Orderly(events[i].circumstances)
  }

  function Passes(events: seq<Event>): nat {
    if events == [] then 0
    else Passes(events[..|events| - 1]) + if events[|events| - 1].Pass? then 1 else 0
  }

  /** The number under which a node goes on: a restore renumbers it, and forgets a node that is gone. */
  function FollowOne(w: World, event: Event, e: Entity): Option<Entity> {
    if event.Restore? then PlaceOf(event.order, e) else Some(e)
  }

  function Follow(w: World, events: seq<Event>, e: Entity): Option<Entity> {
    if events == [] then Some(e)
    else
      var front, last := events[..|events| - 1], events[|events| - 1];
      var before := Follow(w, front, e);
      if before.None? then None else FollowOne(Run(w, front), last, before.value)
  }

  /** What passes the time of one agent between ticks: nothing but its number may change. */
  predicate Carried(w: World, z: World, e: Entity, f: Entity) {
    f in z.nodes ==>
      && e in w.nodes
      && z.nodes[f].account.ledger.invested == w.nodes[e].account.ledger.invested
      && (IsAgent(z, f) ==>
            && IsAgent(w, e)
            && z.nodes[f].agent.value.(clamp := UNCLAMPED) == w.nodes[e].agent.value.(clamp := UNCLAMPED)
            && GripOf(z, f).cooldown == GripOf(w, e).cooldown)
      && (Held(w, e).None? ==> Held(z, f).None?)
  }

  lemma RestoreCarries(w: World, order: seq<Entity>, supplied: set<Entity>, e: Entity)
    requires WorldOk(w) && Enumerates(order, w) && PlaceOf(order, e).Some?
    ensures Carried(w, Restored(w, order, supplied), e, PlaceOf(order, e).value)
  {
    var i := PlaceOf(order, e).value;
    RestoredGrip(w, order, supplied, i);
    RejoinedIs(w, order, i, GripOf(w, e).cooldown);
    assert NodeOk(w.nodes[e]);
  }

  lemma ArrivalCarries(w: World, x: real, y: real, e: Entity)
    requires WorldOk(w) && e < w.next
    ensures Carried(w, SpawnAgent(w, x, y), e, e) && e < SpawnAgent(w, x, y).next
  {
    GenesisAgentOk(x, y);
    ArrivalsStep(w, [GenesisAgent(x, y)]);
  }

  lemma TickGrows(w: World, t: Circumstances)
    requires WorldOk(w) && VisitsOnce(t.exposures)
    ensures w.next <= Tick(w, t).next
  {
    var pre := PrePhysics(w, t);
    PrePhysicsStep(w, t);
    StepSound(w, pre);
    LossesStep(pre, t);
    SoundCompose(w, pre, Stricken(w, t));
    StreamTicked(w, Stricken(w, t), t.scatter);
  }

  /** Between ticks a node is carried on under its number. */
  lemma StillCarries(w: World, event: Event, e: Entity)
    requires WorldOk(w) && Possible(w, event) && !event.Pass? && e < w.next && FollowOne(w, event, e).Some?
    ensures var f := FollowOne(w, event, e).value;
            Carried(w, Advance(w, event), e, f) && f < Advance(w, event).next
  {
    match event
    case Arrival(x, y) => ArrivalCarries(w, x, y, e);
    case Restore(order, supplied) => RestoreCarries(w, order, supplied, e);
  }

  /** The world stays in order, and the numbers stay known. */
  lemma {:induction false} RunGrows(w: World, events: seq<Event>, e: Entity)
    requires WorldOk(w) && Plausible(w, events) && e < w.next
    ensures WorldOk(Run(w, events))
    ensures Follow(w, events, e).Some? ==> Follow(w, events, e).value < Run(w, events).next
  {
    RunKeeps(w, events);
    if events != [] {
      var front, event := events[..|events| - 1], events[|events| - 1];
      RunGrows(w, front, e);
      if Follow(w, events, e).Some? {
        var x, f := Run(w, front), Follow(w, front, e).value;
        if event.Pass? { TickGrows(x, event.circumstances); } else { StillCarries(x, event, f); }
      }
    }
  }

  lemma {:induction false} RunRests(w: World, events: seq<Event>, e: Entity, rest: real)
    requires WorldOk(w) && e < w.next && Plausible(w, events) && AllOrderly(events)
    requires rest <= CLAMP_COOLDOWN && Resting(w, e, rest) && rest - Passes(events) as real * FIXED_DT > 0.0
    ensures var f := Follow(w, events, e);
            f.Some? ==> Resting(Run(w, events), f.value, rest - Passes(events) as real * FIXED_DT)
  {
    if events != [] && Follow(w, events, e).Some? {
      var front, event := events[..|events| - 1], events[|events| - 1];
      var x, f := Run(w, front), Follow(w, front, e).value;
      var left := rest - Passes(events) as real * FIXED_DT;
      RunRests(w, front, e, rest);
      RunGrows(w, front, e);
      if event.Pass? {
        PrePhysicsRests(x, event.circumstances, f, left);
        TickUnhurried(x, event.circumstances, f);
        UnhurriedRests(PrePhysics(x, event.circumstances), Tick(x, event.circumstances), f, left);
      } else {
        StillCarries(x, event, f);
      }
    }
  }

  lemma {:induction false} RunBuilds(w: World, events: seq<Event>, e: Entity, rest: real, invested: real)
    requires WorldOk(w) && e < w.next && Plausible(w, events) && AllOrderly(events)
    requires Unbuilt(w, e, rest, invested) && rest - Passes(events) as real * FIXED_DT > 0.0
    ensures var f := Follow(w, events, e);
            f.Some? ==> Unbuilt(Run(w, events), f.value, rest - Passes(events) as real * FIXED_DT, invested)
  {
    if events != [] && Follow(w, events, e).Some? {
      var front, event := events[..|events| - 1], events[|events| - 1];
      var x, f := Run(w, front), Follow(w, front, e).value;
      var left := rest - Passes(events) as real * FIXED_DT;
      RunBuilds(w, front, e, rest, invested);
      RunGrows(w, front, e);
      if event.Pass? {
        PrePhysicsBuilds(x, event.circumstances, f, left, invested);
        TickUnhurried(x, event.circumstances, f);
        UnhurriedBuilds(PrePhysics(x, event.circumstances), Tick(x, event.circumstances), f, left, invested);
      } else {
        StillCarries(x, event, f);
      }
    }
  }

  lemma {:induction false} RunBears(w: World, events: seq<Event>, e: Entity, invested: real)
    requires WorldOk(w) && e < w.next && Plausible(w, events) && AllOrderly(events)
    requires Barren(w, e, 0, invested) && Passes(events) < 1499
    ensures Follow(w, events, e).Some? ==> Barren(Run(w, events), Follow(w, events, e).value, Passes(events), invested)
  {
    if events != [] && Follow(w, events, e).Some? {
      var front, event := events[..|events| - 1], events[|events| - 1];
      var x, f := Run(w, front), Follow(w, front, e).value;
      RunBears(w, front, e, invested);
      RunGrows(w, front, e);
      if event.Pass? {
        PrePhysicsBears(x, event.circumstances, f, Passes(front), invested);
        TickUnhurried(x, event.circumstances, f);
        UnhurriedBears(PrePhysics(x, event.circumstances), Tick(x, event.circumstances), f, Passes(events), invested);
      } else {
        StillCarries(x, event, f);
      }
    }
  }

  // ---------------------------------------------------------------- what starts the clock

  /** The hand still holds, or has just let go. */
  predicate Opening(w: World, e: Entity) {
    Held(w, e).Some? || Resting(w, e, CLAMP_COOLDOWN)
  }

  /** Nothing more was fabricated, or something just was. */
  predicate Building(w: World, e: Entity, invested: real) {
    e in w.nodes ==>
      || w.nodes[e].account.ledger.invested.fabrication == invested
      || (IsAgent(w, e) ==> w.nodes[e].agent.value.fabricate >= FABRICATE_COOLDOWN)
  }

  /** No child was born, or one just was. */
  predicate Bearing(w: World, e: Entity, invested: real) {
    e in w.nodes ==>
      || w.nodes[e].account.ledger.invested.offspring == invested
      || (IsAgent(w, e) ==>
            w.nodes[e].agent.value.birthCooldown >= REPRODUCTION_COOLDOWN_SECONDS
                && w.nodes[e].agent.value.surplus <= 0.0)
  }

  predicate Fabricated(w: World, e: Entity, invested: real) {
    e in w.nodes ==> w.nodes[e].account.ledger.invested.fabrication == invested
  }

  predicate Delivered(w: World, e: Entity, invested: real) {
    e in w.nodes ==> w.nodes[e].account.ledger.invested.offspring == invested
  }

  lemma UnhurriedStarts(w: World, z: World, e: Entity, built: real, born: real)
    requires Unhurried(w, z, e)
    ensures Opening(w, e) ==> Opening(z, e)
    ensures Building(w, e, built) ==> Building(z, e, built)
    ensures Bearing(w, e, born) ==> Bearing(z, e, born)
    ensures Fabricated(w, e, built) ==> Fabricated(z, e, built)
    ensures Delivered(w, e, born) ==> Delivered(z, e, born)
  {
  }

  lemma SamePaceStarts(w: World, z: World, e: Entity, built: real, born: real)
    requires SamePace(w, z, e)
    ensures Fabricated(w, e, built) ==> Fabricated(z, e, built)
    ensures Delivered(w, e, born) ==> Delivered(z, e, born)
  {
  }

  lemma GripOpens(w: World, e: Entity, clamp: real, nearest: Option<Entity>)
    requires IsAgent(w, e) && ClampOk(GripOf(w, e)) && Opening(w, e) && Held(w, e).Some?
    ensures Opening(Strain(Grip(w, e, clamp, nearest), e), e)
  {
    var gripped := Grip(w, e, clamp, nearest);
    if Held(gripped, e).Some? {
      StrainOpens(gripped, e);
    } else {
      assert gripped.nodes[e].agent.value.clamp == Clamp(None, None, CLAMP_COOLDOWN);
    }
  }

  lemma StrainOpens(w: World, e: Entity)
    requires IsAgent(w, e) && Held(w, e).Some?
    ensures Opening(Strain(w, e), e)
  {
  }

  lemma ApplyOpens(w: World, c: Command)
    requires Good(w) && Held(w, c.entity).Some?
    ensures Opening(ApplyOne(w, c), c.entity)
  {
    var e := c.entity;
    assert e in w.nodes && NodeOk(w.nodes[e]);
    var driven := Drive(w, e, c.frequency);
    DriveUnhurried(w, e, c.frequency, e);
    DriveStep(w, e, c.frequency);
    UnhurriedStarts(w, driven, e, 0.0, 0.0);
    assert NodeOk(driven.nodes[e]);
    var gripped := Grip(driven, e, c.clamp, c.nearest);
    GripOpens(driven, e, c.clamp, c.nearest);
    GripPace(driven, e, c.clamp, c.nearest, e);
    StrainPace(gripped, e, e);
    FabricateKeepsGrip(Strain(gripped, e), e, c.fabricate);
  }

  lemma FabricateStarts(w: World, e: Entity, trigger: real, built: real)
    requires IsAgent(w, e) && e < w.next && Fabricated(w, e, built)
    ensures Building(Fabricate(w, e, trigger), e, built)
  {
  }

  lemma ApplyStarts(w: World, c: Command, built: real)
    requires Keyed(w) && Fabricated(w, c.entity, built)
    ensures Building(ApplyOne(w, c), c.entity, built)
  {
    var e := c.entity;
    if e in w.nodes {
      var driven := Drive(w, e, c.frequency);
      DriveUnhurried(w, e, c.frequency, e);
      SamePaceStarts(w, driven, e, built, 0.0);
      if IsAgent(driven, e) {
        var gripped := Grip(driven, e, c.clamp, c.nearest);
        GripPace(driven, e, c.clamp, c.nearest, e);
        SamePaceStarts(driven, gripped, e, built, 0.0);
        StrainPace(gripped, e, e);
        SamePaceStarts(gripped, Strain(gripped, e), e, built, 0.0);
        FabricateStarts(Strain(gripped, e), e, c.fabricate, built);
      }
    }
  }

  lemma {:induction false} ApplyAllOpens(w: World, cs: seq<Command>, e: Entity)
    requires Good(w) && e < w.next && CommandedOnce(cs) && Held(w, e).Some?
    ensures Opening(ApplyAll(w, cs), e)
  {
    if cs != [] {
      var front, last := cs[..|cs| - 1], cs[|cs| - 1];
      ActuatorsStep(w, front);
      if last.entity == e {
        ApplyAllOther(w, front, e);
        if Held(ApplyAll(w, front), e).Some? {
          ApplyOpens(ApplyAll(w, front), last);
        } else {
          AgentGone(w, ApplyAll(w, front), last);
        }
      } else {
        ApplyAllOpens(w, front, e);
        ApplyOther(ApplyAll(w, front), last, e);
        UnhurriedStarts(ApplyAll(w, front), ApplyAll(w, cs), e, 0.0, 0.0);
      }
    }
  }

  lemma AgentGone(w: World, z: World, c: Command)
    requires Unhurried(w, z, c.entity) && Held(w, c.entity).Some? && Held(z, c.entity).None? && Keyed(z)
    ensures Opening(ApplyOne(z, c), c.entity)
  {
  }

  lemma {:induction false} ApplyAllStarts(w: World, cs: seq<Command>, e: Entity, built: real)
    requires Good(w) && e < w.next && CommandedOnce(cs) && Fabricated(w, e, built)
    ensures Building(ApplyAll(w, cs), e, built)
  {
    if cs != [] {
      var front, last := cs[..|cs| - 1], cs[|cs| - 1];
      ActuatorsStep(w, front);
      if last.entity == e {
        ApplyAllOther(w, front, e);
        UnhurriedStarts(w, ApplyAll(w, front), e, built, 0.0);
        ApplyStarts(ApplyAll(w, front), last, built);
      } else {
        ApplyAllStarts(w, front, e, built);
        ApplyOther(ApplyAll(w, front), last, e);
        UnhurriedStarts(ApplyAll(w, front), ApplyAll(w, cs), e, built, 0.0);
      }
    }
  }

  lemma ReproduceOpens(w: World, x: BirthDraw, e: Entity, built: real)
    requires e < w.next
    ensures Opening(w, e) ==> Opening(ReproduceOne(w, x), e)
    ensures Building(w, e, built) ==> Building(ReproduceOne(w, x), e, built)
  {
  }

  lemma ReproduceStarts(w: World, x: BirthDraw, born: real)
    requires Keyed(w) && Delivered(w, x.entity, born)
    ensures Bearing(ReproduceOne(w, x), x.entity, born)
  {
  }

  lemma {:induction false} BirthsOpen(w: World, xs: seq<BirthDraw>, e: Entity, built: real)
    requires Good(w) && QueueOk(w) && e < w.next
    ensures Opening(w, e) ==> Opening(ReproduceAll(w, xs), e)
    ensures Building(w, e, built) ==> Building(ReproduceAll(w, xs), e, built)
  {
    if xs != [] {
      BirthsOpen(w, xs[..|xs| - 1], e, built);
      BirthsStep(w, xs[..|xs| - 1]);
      ReproduceOpens(ReproduceAll(w, xs[..|xs| - 1]), xs[|xs| - 1], e, built);
    }
  }

  lemma {:induction false} BirthsStart(w: World, xs: seq<BirthDraw>, e: Entity, born: real)
    requires Good(w) && QueueOk(w) && e < w.next && Delivered(w, e, born)
    requires forall i, j | 0 <= i < j < |xs| :: xs[i].entity != xs[j].entity
    ensures Bearing(ReproduceAll(w, xs), e, born)
  {
    if xs != [] {
      var front, last := xs[..|xs| - 1], xs[|xs| - 1];
      BirthsStep(w, front);
      if last.entity == e {
        BirthsOther(w, front, e);
        UnhurriedStarts(w, ReproduceAll(w, front), e, 0.0, born);
        ReproduceStarts(ReproduceAll(w, front), last, born);
      } else {
        BirthsStart(w, front, e, born);
        ReproduceOther(ReproduceAll(w, front), last, e);
        UnhurriedStarts(ReproduceAll(w, front), ReproduceAll(w, xs), e, 0.0, born);
      }
    }
  }

  /** A hand that held is either still holding after the actuators, or has the full cooldown to wait. */
  lemma TickOpens(w: World, t: Circumstances, e: Entity)
    requires WorldOk(w) && Orderly(t) && e < w.next && Held(Cleanup(w), e).Some?
    ensures Opening(Tick(w, t), e)
  {
    var spent, acted, fed := Spent(w, t), Acted(w, t), Fed(w, t);
    SpentStep(w, t);
    assert Held(spent, e).Some?;
    ApplyAllOpens(spent, t.commands, e);
    ActedStep(w, t);
    FedUnhurried(acted, t, e);
    UnhurriedStarts(acted, fed, e, 0.0, 0.0);
    FedStep(acted, t);
    BirthsOpen(fed, t.births, e, 0.0);
    TickUnhurried(w, t, e);
    UnhurriedStarts(PrePhysics(w, t), Tick(w, t), e, 0.0, 0.0);
  }

  lemma TickDrops(w: World, t: Circumstances, e: Entity)
    requires WorldOk(w) && Orderly(t) && e < w.next && Resting(Cleanup(w), e, CLAMP_COOLDOWN)
    ensures Resting(Tick(w, t), e, CLAMP_COOLDOWN - FIXED_DT)
  {
    SpentStep(w, t);
    SteadyUnhurried(Cleanup(w), Spent(w, t), e);
    UnhurriedRests(Cleanup(w), Spent(w, t), e, CLAMP_COOLDOWN);
    SpentRests(w, t, e, CLAMP_COOLDOWN - FIXED_DT);
    TickUnhurried(w, t, e);
    UnhurriedRests(PrePhysics(w, t), Tick(w, t), e, CLAMP_COOLDOWN - FIXED_DT);
  }

  lemma TickBuilds(w: World, t: Circumstances, e: Entity, built: real)
    requires WorldOk(w) && Orderly(t) && e < w.next && Fabricated(w, e, built)
    ensures Building(Tick(w, t), e, built)
  {
    var spent, acted, fed := Spent(w, t), Acted(w, t), Fed(w, t);
    SpentStep(w, t);
    CleanupPace(w, e);
    SamePaceStarts(w, Cleanup(w), e, built, 0.0);
    SteadyUnhurried(Cleanup(w), spent, e);
    UnhurriedStarts(Cleanup(w), spent, e, built, 0.0);
    ApplyAllStarts(spent, t.commands, e, built);
    ActedStep(w, t);
    FedUnhurried(acted, t, e);
    UnhurriedStarts(acted, fed, e, built, 0.0);
    FedStep(acted, t);
    BirthsOpen(fed, t.births, e, built);
    TickUnhurried(w, t, e);
    UnhurriedStarts(PrePhysics(w, t), Tick(w, t), e, built, 0.0);
  }

  lemma TickBears(w: World, t: Circumstances, e: Entity, born: real)
    requires WorldOk(w) && Orderly(t) && e < w.next && Delivered(w, e, born)
    ensures Bearing(Tick(w, t), e, born)
  {
    FedBrood(w, t, e);
    ActedStep(w, t);
    FedStep(Acted(w, t), t);
    BirthsStart(Fed(w, t), t.births, e, born);
    TickUnhurried(w, t, e);
    UnhurriedStarts(PrePhysics(w, t), Tick(w, t), e, 0.0, born);
  }

  // ---------------------------------------------------------------- what a birth takes

  predicate Gathers(w: World, e: Entity, surplus: real) {
    IsAgent(w, e) ==> w.nodes[e].agent.value.surplus <= surplus
  }

  predicate Favored(w: World, e: Entity) {
    IsAgent(w, e) && Eligible(w.nodes[e])
  }

  /** A pass that meets the agent eligible adds one step to its surplus; one that does not empties it. */
  function Gathered(w: World, xs: seq<BirthDraw>, e: Entity, surplus: real): real {
    if Passed(xs, e) then surplus else if Favored(w, e) then surplus + FIXED_DT else 0.0
  }

  lemma ReproduceGathers(w: World, x: BirthDraw, surplus: real)
    requires Keyed(w) && surplus >= 0.0 && Gathers(w, x.entity, surplus)
    ensures Gathers(ReproduceOne(w, x), x.entity, if Favored(w, x.entity) then surplus + FIXED_DT else 0.0)
    ensures SameBirths(w, ReproduceOne(w, x), x.entity)
            || (Favored(w, x.entity) && surplus + FIXED_DT >= REPRODUCTION_SURPLUS_SECONDS)
  {
  }

  predicate SameBirths(w: World, z: World, e: Entity) {
    e in w.nodes && e in z.nodes ==>
      z.nodes[e].account.ledger.invested.offspring == w.nodes[e].account.ledger.invested.offspring
  }

  lemma {:induction false} BirthsGather(w: World, xs: seq<BirthDraw>, e: Entity, surplus: real)
    requires Good(w) && QueueOk(w) && e < w.next && surplus >= 0.0 && Gathers(w, e, surplus)
    requires forall i, j | 0 <= i < j < |xs| :: xs[i].entity != xs[j].entity
    ensures Gathers(ReproduceAll(w, xs), e, Gathered(w, xs, e, surplus))
    ensures SameBirths(w, ReproduceAll(w, xs), e)
            || (!Passed(xs, e) && Favored(w, e) && surplus + FIXED_DT >= REPRODUCTION_SURPLUS_SECONDS)
  {
    if xs != [] {
      var front, last := xs[..|xs| - 1], xs[|xs| - 1];
      var x := ReproduceAll(w, front);
      BirthsStep(w, front);
      if last.entity == e {
        BirthsOther(w, front, e);
        ReproduceGathers(x, last, surplus);
      } else {
        BirthsGather(w, front, e, surplus);
        ReproduceOther(x, last, e);
        assert Passed(xs, e) <==> Passed(front, e) by { assert forall i | 0 <= i < |front| :: front[i] == xs[i]; }
      }
    }
  }

  lemma BroodGathers(w: World, z: World, e: Entity, surplus: real)
    requires SameBrood(w, z, e)
    ensures Gathers(w, e, surplus) ==> Gathers(z, e, surplus)
    ensures SameBirths(w, z, e)
  {
  }

  lemma FedGathers(w: World, t: Circumstances, e: Entity, surplus: real)
    requires WorldOk(w) && Orderly(t) && e < w.next && surplus >= 0.0 && Gathers(Fed(w, t), e, surplus)
    ensures Gathers(PrePhysics(w, t), e, Gathered(Fed(w, t), t.births, e, surplus))
    ensures SameBirths(Fed(w, t), PrePhysics(w, t), e)
            || (!Passed(t.births, e) && Favored(Fed(w, t), e) && surplus + FIXED_DT >= REPRODUCTION_SURPLUS_SECONDS)
    ensures e in PrePhysics(w, t).nodes ==> e in Fed(w, t).nodes
  {
    ActedStep(w, t);
    FedStep(Acted(w, t), t);
    BirthsGather(Fed(w, t), t.births, e, surplus);
    BirthsStep(Fed(w, t), t.births);
  }

  lemma TickGathers(w: World, t: Circumstances, e: Entity, surplus: real)
    requires WorldOk(w) && Orderly(t) && e < w.next && surplus >= 0.0 && Gathers(w, e, surplus)
    ensures Gathers(Tick(w, t), e, Gathered(Fed(w, t), t.births, e, surplus))
    ensures SameBirths(w, Tick(w, t), e)
            || (!Passed(t.births, e) && Favored(Fed(w, t), e) && surplus + FIXED_DT >= REPRODUCTION_SURPLUS_SECONDS)
  {
    FedBrood(w, t, e);
    BroodGathers(w, Fed(w, t), e, surplus);
    FedGathers(w, t, e, surplus);
    TickUnhurried(w, t, e);
    PaceBrood(PrePhysics(w, t), Tick(w, t), e);
    BroodGathers(PrePhysics(w, t), Tick(w, t), e, Gathered(Fed(w, t), t.births, e, surplus));
  }

  /** How many of the latest passes that considered the agent found it eligible, without a break. */
  function Streak(w: World, events: seq<Event>, e: Entity): nat {
    if events == [] then 0
    else
      var front, last := events[..|events| - 1], events[|events| - 1];
      var before, x, f := Streak(w, front, e), Run(w, front), Follow(w, front, e);
      if !last.Pass? || f.None? || Passed(last.circumstances.births, f.value) then before
      else if Favored(Fed(x, last.circumstances), f.value) then before + 1
      else 0
  }

  lemma {:induction false} RunGathers(w: World, events: seq<Event>, e: Entity)
    requires WorldOk(w) && e < w.next && Plausible(w, events) && AllOrderly(events) && Gathers(w, e, 0.0)
    ensures var f := Follow(w, events, e);
            f.Some? ==> Gathers(Run(w, events), f.value, Streak(w, events, e) as real * FIXED_DT)
  {
    if events != [] && Follow(w, events, e).Some? {
      var front, event := events[..|events| - 1], events[|events| - 1];
      var x, f := Run(w, front), Follow(w, front, e).value;
      RunGathers(w, front, e);
      RunGrows(w, front, e);
      if event.Pass? {
        TickGathers(x, event.circumstances, f, Streak(w, front, e) as real * FIXED_DT);
      } else {
        StillCarries(x, event, f);
      }
    }
  }

  lemma StreakGrows(w: World, events: seq<Event>, t: Circumstances, e: Entity)
    requires Follow(w, events, e).Some? && !Passed(t.births, Follow(w, events, e).value)
    requires Favored(Fed(Run(w, events), t), Follow(w, events, e).value)
    ensures Streak(w, events + [Pass(t)], e) == Streak(w, events, e) + 1
  {
    assert (events + [Pass(t)])[..|events|] == events;
  }

  // ---------------------------------------------------------------- the main results

  /**
   After a hand lets go in a tick it holds nothing for 90 actuator passes, in every run,
   restores included. If cleanup opened it because its target or joint was gone, the pass of
   the same tick is the first.
   */
  lemma ReclampRate(w: World, t: Circumstances, e: Entity, events: seq<Event>)
    requires WorldOk(w) && Orderly(t) && Plausible(Tick(w, t), events) && AllOrderly(events)
    requires Held(w, e).Some? && Held(Tick(w, t), e).None?
    requires Passes(events) < if Dangling(w, e) then 89 else 90
    ensures var f := Follow(Tick(w, t), events, e);
            f.Some? ==> Held(Run(Tick(w, t), events), f.value).None?
  {
    TickKeeps(w, t);
    TickGrows(w, t);
    assert e in w.nodes;
    CleanupGrips(w, e);
    if Dangling(w, e) {
      TickDrops(w, t, e);
      RunRests(Tick(w, t), events, e, CLAMP_COOLDOWN - FIXED_DT);
    } else {
      TickOpens(w, t, e);
      RunRests(Tick(w, t), events, e, CLAMP_COOLDOWN);
    }
  }

  /**
   A hand that a restore opens need not wait: an agent loses its hold across a restore exactly
   if its target is gone, and then it has no cooldown left, where cleanup would have set one.
   */
  lemma RestoreFreesAtOnce(w: World, order: seq<Entity>, supplied: set<Entity>, e: Entity)
    requires WorldOk(w) && Enumerates(order, w) && Held(w, e).Some? && e in supplied
    ensures var z, f := Restored(w, order, supplied), PlaceOf(order, e);
            && f.Some? && IsAgent(z, f.value) && GripOf(z, f.value).cooldown <= 0.0
            && (Held(z, f.value).None? <==> !Grasps(w, e))
  {
    assert Meets(order, e) && NodeOk(w.nodes[e]);
    var i := PlaceOf(order, e).value;
    RestoredGrip(w, order, supplied, i);
    RejoinedIs(w, order, i, GripOf(w, e).cooldown);
    GraspsLinks(w, order, i);
  }

  /** Two fabrications of one agent are at least 180 ticks apart, in every run, restores included. */
  lemma FabricationRate(w: World, t: Circumstances, e: Entity, events: seq<Event>)
    requires WorldOk(w) && Orderly(t) && Plausible(Tick(w, t), events) && AllOrderly(events) && Passes(events) < 180
    requires var y, f := Tick(w, t), Follow(Tick(w, t), events, e);
             && e in w.nodes && e in y.nodes && f.Some? && f.value in Run(y, events).nodes
             && y.nodes[e].account.ledger.invested.fabrication != w.nodes[e].account.ledger.invested.fabrication
    ensures var y, f := Tick(w, t), Follow(Tick(w, t), events, e).value;
            Run(y, events).nodes[f].account.ledger.invested.fabrication ==
                y.nodes[e].account.ledger.invested.fabrication
  {
    TickKeeps(w, t);
    TickGrows(w, t);
    var y := Tick(w, t);
    TickBuilds(w, t, e, w.nodes[e].account.ledger.invested.fabrication);
    RunBuilds(y, events, e, FABRICATE_COOLDOWN, y.nodes[e].account.ledger.invested.fabrication);
  }

  /**
   Two births of one parent are at least 1499 ticks apart, in every run, restores included:
   1200 to cool down, and from then on 300 in surplus.
   */
  lemma BirthRate(w: World, t: Circumstances, e: Entity, events: seq<Event>)
    requires WorldOk(w) && Orderly(t) && Plausible(Tick(w, t), events) && AllOrderly(events) && Passes(events) < 1499
    requires var y, f := Tick(w, t), Follow(Tick(w, t), events, e);
             && e in w.nodes && e in y.nodes && f.Some? && f.value in Run(y, events).nodes
             && y.nodes[e].account.ledger.invested.offspring != w.nodes[e].account.ledger.invested.offspring
    ensures var y, f := Tick(w, t), Follow(Tick(w, t), events, e).value;
            Run(y, events).nodes[f].account.ledger.invested.offspring == y.nodes[e].account.ledger.invested.offspring
  {
    TickKeeps(w, t);
    TickGrows(w, t);
    var y := Tick(w, t);
    TickBears(w, t, e, w.nodes[e].account.ledger.invested.offspring);
    RunBears(y, events, e, y.nodes[e].account.ledger.invested.offspring);
  }

  /**
   Every birth, the first included, takes 300 passes in a row that find the parent eligible,
   counted from any world in which it has no surplus, as when it was born or arrived.
   */
  lemma BirthStreak(w: World, events: seq<Event>, t: Circumstances, e: Entity)
    requires WorldOk(w) && e < w.next && Gathers(w, e, 0.0)
    requires Plausible(w, events) && AllOrderly(events) && Orderly(t) && Follow(w, events, e).Some?
    requires !SameBirths(Run(w, events), Tick(Run(w, events), t), Follow(w, events, e).value)
    ensures Streak(w, events + [Pass(t)], e) >= 300
  {
    var x, f := Run(w, events), Follow(w, events, e).value;
    RunGathers(w, events, e);
    RunGrows(w, events, e);
    TickGathers(x, t, f, Streak(w, events, e) as real * FIXED_DT);
    StreakGrows(w, events, t, e);
  }
}
