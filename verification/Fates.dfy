/**
 What becomes of a node in one tick: what is booked to it and by which system, where it is,
 whether it lives on, and what the evaluator is told when it does not.
 */
module Fates {
  import opened Wrappers
  import opened Energy
  import opened World
  import opened Economy
  import opened Actuation
  import opened Lineage
  import opened Failure
  import opened Genesis
  import opened Simulation
  import opened Effects
  import opened Landscape
  import C = Commands

  // ---------------------------------------------------------------- the schedule

  lemma {:induction false} EffortsFold(w: World, xs: seq<Effort>)
    ensures SpendEfforts(w, xs) == Fold(SpendEffort, w, xs)
  {
    if xs != [] {
      EffortsFold(w, xs[..|xs| - 1]);
      FoldLast(SpendEffort, w, xs[..|xs| - 1], xs[|xs| - 1]);
      assert xs == xs[..|xs| - 1] + [xs[|xs| - 1]];
    }
  }

  lemma {:induction false} CommandsFold(w: World, xs: seq<Command>)
    ensures ApplyAll(w, xs) == Fold(ApplyOne, w, xs)
  {
    if xs != [] {
      CommandsFold(w, xs[..|xs| - 1]);
      FoldLast(ApplyOne, w, xs[..|xs| - 1], xs[|xs| - 1]);
      assert xs == xs[..|xs| - 1] + [xs[|xs| - 1]];
    }
  }

  lemma {:induction false} DrainFold(w: World, xs: seq<Exposure>)
    ensures DrainAll(w, xs) == Fold(DrainOne, w, xs)
  {
    if xs != [] {
      DrainFold(w, xs[..|xs| - 1]);
      FoldLast(DrainOne, w, xs[..|xs| - 1], xs[|xs| - 1]);
      assert xs == xs[..|xs| - 1] + [xs[|xs| - 1]];
    }
  }

  lemma {:induction false} HarvestFold(w: World, xs: seq<Contact>)
    ensures HarvestAll(w, xs) == Fold(HarvestOne, w, xs)
  {
    if xs != [] {
      HarvestFold(w, xs[..|xs| - 1]);
      FoldLast(HarvestOne, w, xs[..|xs| - 1], xs[|xs| - 1]);
      assert xs == xs[..|xs| - 1] + [xs[|xs| - 1]];
    }
  }

  lemma {:induction false} TrapsFold(w: World, xs: seq<Spike>)
    ensures DischargeAll(w, xs) == Fold(DischargeOne, w, xs)
  {
    if xs != [] {
      TrapsFold(w, xs[..|xs| - 1]);
      FoldLast(DischargeOne, w, xs[..|xs| - 1], xs[|xs| - 1]);
      assert xs == xs[..|xs| - 1] + [xs[|xs| - 1]];
    }
  }

  lemma {:induction false} BirthsFold(w: World, xs: seq<BirthDraw>)
    ensures ReproduceAll(w, xs) == Fold(ReproduceOne, w, xs)
  {
    if xs != [] {
      BirthsFold(w, xs[..|xs| - 1]);
      FoldLast(ReproduceOne, w, xs[..|xs| - 1], xs[|xs| - 1]);
      assert xs == xs[..|xs| - 1] + [xs[|xs| - 1]];
    }
  }

  lemma {:induction false} BlowsFold(w: World, xs: seq<Impact>)
    ensures ImpactAll(w, xs) == Fold(ImpactOne, w, xs)
  {
    if xs != [] {
      BlowsFold(w, xs[..|xs| - 1]);
      FoldLast(ImpactOne, w, xs[..|xs| - 1], xs[|xs| - 1]);
      assert xs == xs[..|xs| - 1] + [xs[|xs| - 1]];
    }
  }

  lemma {:induction false} KillersFold(w: World, xs: seq<FragmentEntry>)
    ensures ConsumeAll(w, xs) == Fold(ConsumeOne, w, xs)
  {
    if xs != [] {
      KillersFold(w, xs[..|xs| - 1]);
      FoldLast(ConsumeOne, w, xs[..|xs| - 1], xs[|xs| - 1]);
      assert xs == xs[..|xs| - 1] + [xs[|xs| - 1]];
    }
  }

  lemma {:induction false} DeathsFold(w: World, xs: seq<Entity>)
    ensures DieAll(w, xs) == Fold(DieOne, w, xs)
  {
    if xs != [] {
      DeathsFold(w, xs[..|xs| - 1]);
      FoldLast(DieOne, w, xs[..|xs| - 1], xs[|xs| - 1]);
      assert xs == xs[..|xs| - 1] + [xs[|xs| - 1]];
    }
  }

  /** The division of one queued node, as its draw has it. */
  function Splitting(draws: Entity -> SplitDraw): (World, FragmentEntry) -> World {
    (w: World, f: FragmentEntry) => SplitOne(w, f.victim, draws(f.victim))
  }

  lemma {:induction false} SplitsFold(w: World, queue: seq<FragmentEntry>, draws: Entity -> SplitDraw)
    ensures SplitAll(w, queue, draws) == Fold(Splitting(draws), w, queue)
  {
    if queue != [] {
      SplitsFold(w, queue[..|queue| - 1], draws);
      FoldLast(Splitting(draws), w, queue[..|queue| - 1], queue[|queue| - 1]);
      assert queue == queue[..|queue| - 1] + [queue[|queue| - 1]];
    }
  }

  /**
   The schedule of a tick. Each system goes through its items from the first to the last, on what
   the one before it left. Before physics: cleanup, locomotion, actuators, drain, harvest, traps
   and births.
   */
  lemma BeforePhysics(w: World, t: Circumstances)
    ensures var acted := Fold(ApplyOne, Fold(SpendEffort, Cleanup(w), t.efforts), t.commands);
            PrePhysics(w, t) ==
            Fold(ReproduceOne, Fold(DischargeOne, Fold(HarvestOne, Fold(DrainOne, acted, t.exposures), t.contacts),
                                    t.spikes), t.births)
  {
    EffortsFold(Cleanup(w), t.efforts);
    CommandsFold(Spent(w, t), t.commands);
    DrainFold(Acted(w, t), t.exposures);
    HarvestFold(DrainAll(Acted(w, t), t.exposures), t.contacts);
    TrapsFold(HarvestAll(DrainAll(Acted(w, t), t.exposures), t.contacts), t.spikes);
    BirthsFold(Simulation.Fed(w, t), t.births);
  }

  /** After physics: blows on relaxed nodes, consumption, fragmentation, and death. */
  lemma AfterPhysics(w: World, t: Circumstances)
    ensures var hit := Fold(ImpactOne, RelaxStress(Move(PrePhysics(w, t), t.motion)), t.impacts);
            var eaten := Fold(ConsumeOne, hit, hit.fragments);
            var split := Fold(Splitting(t.splits), eaten, eaten.fragments).(fragments := []);
            Stricken(w, t) == Fold(DieOne, split.(deaths := []), split.deaths)
  {
    BlowsFold(Calm(w, t), t.impacts);
    var hit := ImpactAll(Calm(w, t), t.impacts);
    KillersFold(hit, hit.fragments);
    var eaten := Collide(PrePhysics(w, t), t);
    SplitsFold(eaten, eaten.fragments, t.splits);
    var split := RunFragmentation(eaten, t.splits);
    DeathsFold(split.(deaths := []), split.deaths);
  }

  /** At the end of a tick: streaming, on every 120th step, the clock and the record. */
  lemma AtTheEnd(w: World, t: Circumstances)
    ensures var died := Stricken(w, t);
            var scene := if died.step % 120 == 0 then Stream(died, t.scatter) else died;
            Tick(w, t) == RecordHistory(scene.(step := scene.step + if scene.step < U64_MAX then 1 else 0))
  {
  }

  // ---------------------------------------------------------------- which entries a system touches

  /** The node is there still, is made of the same, and no entry but these has changed. */
  ghost predicate Touches(w: World, z: World, e: Entity, flows: set<Flow>) {
    && e in w.nodes && e in z.nodes
    && z.nodes[e].conductivity == w.nodes[e].conductivity && z.nodes[e].tags == w.nodes[e].tags
    && z.nodes[e].dead == w.nodes[e].dead && z.nodes[e].agent.Some? == w.nodes[e].agent.Some?
    && forall f | f !in flows :: Entry(z.nodes[e].account.ledger, f) == Entry(w.nodes[e].account.ledger, f)
  }

  lemma TouchesMore(w: World, x: World, z: World, e: Entity, some: set<Flow>, more: set<Flow>)
    requires Touches(w, x, e, some) && Touches(x, z, e, more)
    ensures Touches(w, z, e, some + more)
  {
    forall f | f !in some + more ensures Entry(z.nodes[e].account.ledger, f) == Entry(w.nodes[e].account.ledger, f) {
      assert f !in some && f !in more;
    }
  }

  lemma CleanupTouches(w: World, e: Entity)
    requires e in w.nodes
    ensures Touches(w, Cleanup(w), e, {}) && Cleanup(w).deaths == w.deaths
  {
  }

  lemma {:induction false} EffortsTouch(w: World, xs: seq<Effort>, e: Entity)
    requires e in w.nodes
    ensures Touches(w, SpendEfforts(w, xs), e, {Flow.Actuation}) && SpendEfforts(w, xs).deaths == w.deaths
  {
    if xs != [] {
      EffortsTouch(w, xs[..|xs| - 1], e);
      EffortExactly(SpendEfforts(w, xs[..|xs| - 1]), xs[|xs| - 1]);
    }
  }

  lemma CommandTouches(w: World, c: Command, e: Entity)
    requires Good(w) && e in w.nodes
    ensures Touches(w, ApplyOne(w, c), e, {Flow.Actuation, Flow.Fabrication}) && ApplyOne(w, c).deaths == w.deaths
  {
    CommandDeaths(w, c);
    if e != c.entity {
      CommandOther(w, c, e);
    } else if IsAgent(w, e) {
      C.CommandBooks(w, c);
      CommandMakes(w, c);
    } else {
      C.DriveExactly(w, e, c.frequency);
    }
  }

  lemma CommandDeaths(w: World, c: Command)
    ensures ApplyOne(w, c).deaths == w.deaths
  {
    if c.entity in w.nodes && IsAgent(Drive(w, c.entity, c.frequency), c.entity) {
      HandDeaths(Drive(w, c.entity, c.frequency), c.entity, c.clamp, c.nearest);
    }
  }

  lemma HandDeaths(w: World, e: Entity, clamp: real, nearest: Option<Entity>)
    requires IsAgent(w, e)
    ensures Grip(w, e, clamp, nearest).deaths == w.deaths
    ensures Strain(Grip(w, e, clamp, nearest), e).deaths == w.deaths
  {
    StrainDeaths(Grip(w, e, clamp, nearest), e);
  }

  lemma StrainDeaths(w: World, e: Entity)
    requires IsAgent(w, e)
    ensures Strain(w, e).deaths == w.deaths
  {
  }

  lemma CommandMakes(w: World, c: Command)
    requires Good(w) && IsAgent(w, c.entity)
    ensures var n, z := w.nodes[c.entity], ApplyOne(w, c);
            && IsAgent(z, c.entity) && z.nodes[c.entity].conductivity == n.conductivity
            && z.nodes[c.entity].tags == n.tags && z.nodes[c.entity].dead == n.dead
  {
    var x := Drive(w, c.entity, c.frequency);
    C.DrivenHand(w, c);
    C.DriveExactly(w, c.entity, c.frequency);
    C.GripLeaves(x, c.entity, c.clamp, c.nearest);
    C.StrainCosts(Grip(x, c.entity, c.clamp, c.nearest), c.entity);
    C.StrainedKeyed(w, c);
    StrainedMakes(w, c);
  }

  lemma StrainedMakes(w: World, c: Command)
    requires Good(w) && IsAgent(w, c.entity) && Keyed(C.Strained(w, c))
    ensures var y := C.Strained(w, c);
            var z := Fabricate(y, c.entity, c.fabricate);
            && IsAgent(z, c.entity) && z.nodes[c.entity].conductivity == y.nodes[c.entity].conductivity
            && z.nodes[c.entity].tags == y.nodes[c.entity].tags && z.nodes[c.entity].dead == y.nodes[c.entity].dead
  {
  }

  /** A command leaves everyone else as they are. */
  lemma CommandOther(w: World, c: Command, e: Entity)
    requires Good(w) && e in w.nodes && e != c.entity
    ensures e in ApplyOne(w, c).nodes && ApplyOne(w, c).nodes[e] == w.nodes[e]
  {
    if c.entity in w.nodes {
      C.DriveExactly(w, c.entity, c.frequency);
      if IsAgent(w, c.entity) {
        C.DrivenHand(w, c);
        C.StrainedKeyed(w, c);
        C.FabricateExactly(C.Strained(w, c), c.entity, c.fabricate);
        OtherHand(Drive(w, c.entity, c.frequency), c.entity, c.clamp, c.nearest, e);
      }
    }
  }

  lemma OtherHand(w: World, agent: Entity, clamp: real, nearest: Option<Entity>, e: Entity)
    requires IsAgent(w, agent) && e in w.nodes && e != agent
    ensures var z := Strain(Grip(w, agent, clamp, nearest), agent); e in z.nodes && z.nodes[e] == w.nodes[e]
  {
    OtherGrip(w, agent, clamp, nearest, e);
    OtherStrain(Grip(w, agent, clamp, nearest), agent, e);
  }

  lemma OtherGrip(w: World, agent: Entity, clamp: real, nearest: Option<Entity>, e: Entity)
    requires IsAgent(w, agent) && e in w.nodes && e != agent
    ensures var z := Grip(w, agent, clamp, nearest); e in z.nodes && z.nodes[e] == w.nodes[e]
  {
  }

  lemma OtherStrain(w: World, agent: Entity, e: Entity)
    requires IsAgent(w, agent) && e in w.nodes && e != agent
    ensures e in Strain(w, agent).nodes && Strain(w, agent).nodes[e] == w.nodes[e]
  {
  }

  lemma {:induction false} CommandsTouch(w: World, cs: seq<Command>, e: Entity)
    requires Good(w) && e in w.nodes
    ensures Touches(w, ApplyAll(w, cs), e, {Flow.Actuation, Flow.Fabrication}) && ApplyAll(w, cs).deaths == w.deaths
  {
    if cs != [] {
      var front, x := cs[..|cs| - 1], ApplyAll(w, cs[..|cs| - 1]);
      CommandsTouch(w, front, e);
      ActuatorsStep(w, front);
      CommandTouches(x, cs[|cs| - 1], e);
      var flows := {Flow.Actuation, Flow.Fabrication};
      TouchesMore(w, x, ApplyAll(w, cs), e, flows, flows);
      assert flows + flows == flows;
    }
  }

  lemma DrainTouches(w: World, xs: seq<Exposure>, e: Entity)
    requires e in w.nodes && VisitsOnce(xs)
    ensures Touches(w, DrainAll(w, xs), e, {Vented, Dissipated})
  {
    DrainJudges(w, xs, e);
  }

  lemma {:induction false} HarvestTouches(w: World, xs: seq<Contact>, e: Entity)
    requires e in w.nodes
    ensures Touches(w, HarvestAll(w, xs), e, {Transferred, Harvested}) && HarvestAll(w, xs).deaths == w.deaths
  {
    if xs != [] {
      HarvestTouches(w, xs[..|xs| - 1], e);
      HarvestExactly(HarvestAll(w, xs[..|xs| - 1]), xs[|xs| - 1]);
    }
  }

  lemma {:induction false} TrapsTouch(w: World, xs: seq<Spike>, e: Entity)
    requires e in w.nodes
    ensures Touches(w, DischargeAll(w, xs), e, {Transferred, Harvested}) && DischargeAll(w, xs).deaths == w.deaths
  {
    if xs != [] {
      TrapsTouch(w, xs[..|xs| - 1], e);
      TrapExactly(DischargeAll(w, xs[..|xs| - 1]), xs[|xs| - 1], e);
    }
  }

  lemma BirthTouches(w: World, x: BirthDraw, e: Entity)
    requires Keyed(w) && e in w.nodes
    ensures Touches(w, ReproduceOne(w, x), e, {Offspring}) && ReproduceOne(w, x).deaths == w.deaths
  {
    if IsAgent(w, x.entity) { BirthExactly(w, x); }
  }

  lemma {:induction false} BirthsTouch(w: World, xs: seq<BirthDraw>, e: Entity)
    requires Good(w) && QueueOk(w) && e in w.nodes
    ensures Touches(w, ReproduceAll(w, xs), e, {Offspring}) && ReproduceAll(w, xs).deaths == w.deaths
  {
    if xs != [] {
      var front, x := xs[..|xs| - 1], ReproduceAll(w, xs[..|xs| - 1]);
      BirthsTouch(w, front, e);
      BirthsStep(w, front);
      BirthTouches(x, xs[|xs| - 1], e);
      TouchesMore(w, x, ReproduceAll(w, xs), e, {Offspring}, {Offspring});
    }
  }

  /** Bodies as physics moves them. */
  lemma MovesExactly(w: World, motion: Entity -> Offset, e: Entity)
    requires e in w.nodes
    ensures var z := RelaxStress(Move(w, motion));
            && Touches(w, z, e, {}) && z.deaths == w.deaths && z.nodes[e].account == w.nodes[e].account
            && z.nodes[e].x == motion(e).dx && z.nodes[e].y == motion(e).dy
  {
  }

  /** The same place and the same account. */
  predicate Stays(w: World, z: World, e: Entity) {
    && e in w.nodes && e in z.nodes
    && z.nodes[e].x == w.nodes[e].x && z.nodes[e].y == w.nodes[e].y && z.nodes[e].account == w.nodes[e].account
  }

  lemma BlowTouches(w: World, x: Impact, e: Entity)
    requires e in w.nodes
    ensures Touches(w, ImpactOne(w, x), e, {}) && ImpactOne(w, x).deaths == w.deaths && Stays(w, ImpactOne(w, x), e)
  {
    if x.victim in w.nodes && x.impulse > 0.0 { BlowExactly(w, x); } else { NoBlow(w, x); }
  }

  lemma {:induction false} BlowsTouch(w: World, xs: seq<Impact>, e: Entity)
    requires e in w.nodes
    ensures Touches(w, ImpactAll(w, xs), e, {}) && ImpactAll(w, xs).deaths == w.deaths && Stays(w, ImpactAll(w, xs), e)
  {
    if xs != [] {
      BlowsTouch(w, xs[..|xs| - 1], e);
      BlowTouches(ImpactAll(w, xs[..|xs| - 1]), xs[|xs| - 1], e);
    }
  }

  lemma {:induction false} KillersTouch(w: World, xs: seq<FragmentEntry>, e: Entity)
    requires e in w.nodes
    ensures var z := ConsumeAll(w, xs);
            && Touches(w, z, e, {Transferred, Consumed}) && z.deaths == w.deaths
            && z.nodes[e].x == w.nodes[e].x && z.nodes[e].y == w.nodes[e].y
  {
    if xs != [] {
      KillersTouch(w, xs[..|xs| - 1], e);
      ConsumeExactly(ConsumeAll(w, xs[..|xs| - 1]), xs[|xs| - 1]);
    }
  }

  // ---------------------------------------------------------------- up to the drain pass

  lemma SpentTouches(w: World, t: Circumstances, e: Entity)
    requires Good(w) && e in w.nodes
    ensures Touches(w, Spent(w, t), e, {Flow.Actuation}) && Spent(w, t).deaths == w.deaths && Good(Spent(w, t))
  {
    CleanupTouches(w, e);
    EffortsTouch(Cleanup(w), t.efforts, e);
    SpentStep(w, t);
    TouchesMore(w, Cleanup(w), Spent(w, t), e, {}, {Flow.Actuation});
    assert {} + {Flow.Actuation} == {Flow.Actuation};
  }

  lemma ActedTouches(w: World, t: Circumstances, e: Entity)
    requires WorldOk(w) && e in w.nodes
    ensures Good(Acted(w, t)) && Acted(w, t).fragments == [] && Acted(w, t).deaths == []
    ensures Touches(w, Acted(w, t), e, {Flow.Actuation, Flow.Fabrication})
  {
    SpentTouches(w, t, e);
    CommandsTouch(Spent(w, t), t.commands, e);
    ActedStep(w, t);
    TouchesMore(w, Spent(w, t), Acted(w, t), e, {Flow.Actuation}, {Flow.Actuation, Flow.Fabrication});
    assert {Flow.Actuation} + {Flow.Actuation, Flow.Fabrication} == {Flow.Actuation, Flow.Fabrication};
  }

  /** The world at the end of the drain pass. */
  function Weathered(w: World, t: Circumstances): World {
    DrainAll(Acted(w, t), t.exposures)
  }

  /** The world as fragmentation finds it. */
  function Beaten(w: World, t: Circumstances): World {
    Collide(PrePhysics(w, t), t)
  }

  /** From the drain pass to fragmentation nobody is put on the death list or taken off it. */
  lemma WeatheredTouches(w: World, t: Circumstances, e: Entity)
    requires WorldOk(w) && VisitsOnce(t.exposures) && e in w.nodes
    ensures Touches(Weathered(w, t), PrePhysics(w, t), e, {Transferred, Harvested, Offspring})
    ensures PrePhysics(w, t).deaths == Weathered(w, t).deaths
  {
    var c, fed := Weathered(w, t), Simulation.Fed(w, t);
    FedTouches(w, t, e);
    ActedStep(w, t);
    FedStep(Acted(w, t), t);
    BirthsTouch(fed, t.births, e);
    TouchesMore(c, fed, PrePhysics(w, t), e, {Transferred, Harvested}, {Offspring});
    assert {Transferred, Harvested} + {Offspring} == {Transferred, Harvested, Offspring};
  }

  lemma FedTouches(w: World, t: Circumstances, e: Entity)
    requires WorldOk(w) && VisitsOnce(t.exposures) && e in w.nodes
    ensures Touches(Weathered(w, t), Simulation.Fed(w, t), e, {Transferred, Harvested})
    ensures Simulation.Fed(w, t).deaths == Weathered(w, t).deaths
  {
    var c := Weathered(w, t);
    var d := HarvestAll(c, t.contacts);
    ActedTouches(w, t, e);
    DrainTouches(Acted(w, t), t.exposures, e);
    HarvestTouches(c, t.contacts, e);
    TrapsTouch(d, t.spikes, e);
    TouchesMore(c, d, Simulation.Fed(w, t), e, {Transferred, Harvested}, {Transferred, Harvested});
    assert {Transferred, Harvested} + {Transferred, Harvested} == {Transferred, Harvested};
  }

  lemma BeatenTouches(w: World, t: Circumstances, e: Entity)
    requires WorldOk(w) && VisitsOnce(t.exposures) && e in w.nodes
    ensures Touches(PrePhysics(w, t), Beaten(w, t), e, {Transferred, Consumed})
    ensures Beaten(w, t).deaths == PrePhysics(w, t).deaths
    ensures Beaten(w, t).nodes[e].x == t.motion(e).dx && Beaten(w, t).nodes[e].y == t.motion(e).dy
  {
    var pre, calm := PrePhysics(w, t), Calm(w, t);
    var hit := ImpactAll(calm, t.impacts);
    WeatheredTouches(w, t, e);
    MovesExactly(pre, t.motion, e);
    BlowsTouch(calm, t.impacts, e);
    KillersTouch(hit, hit.fragments, e);
    TouchesMore(pre, calm, hit, e, {}, {});
    TouchesMore(pre, hit, Beaten(w, t), e, {} + {}, {Transferred, Consumed});
    assert {} + {} + {Transferred, Consumed} == {Transferred, Consumed};
  }

  // ---------------------------------------------------------------- from fragmentation on

  /** Who falls apart is gone; anyone else is as it was, but for dying if it is on the list. */
  lemma LossesDecide(w: World, t: Circumstances, e: Entity)
    requires WorldOk(w) && VisitsOnce(t.exposures) && e in w.nodes
    ensures var k, x := Beaten(w, t), Stricken(w, t);
            && (e in x.nodes <==> !Queued(k.fragments, e))
            && (e in x.nodes ==>
                  && Stays(k, x, e) && (IsAgent(x, e) <==> IsAgent(k, e) && e !in k.deaths)
                  && (x.nodes[e].dead <==> k.nodes[e].dead || e in k.deaths))
  {
    var k := Beaten(w, t);
    var s := RunFragmentation(k, t.splits);
    BeatenTouches(w, t, e);
    PrePhysicsStep(w, t);
    CollideStep(PrePhysics(w, t), t);
    FragmentationStep(k, t.splits);
    if Queued(k.fragments, e) {
      ShatteredGone(k, s, k.fragments, e);
      StillGone(s.(deaths := []), s.deaths, e);
    } else {
      DeathsExactly(s.(deaths := []), s.deaths, e);
      DeathStays(s.(deaths := []), s.deaths, e);
    }
  }

  lemma {:induction false} StillGone(w: World, es: seq<Entity>, e: Entity)
    requires e !in w.nodes
    ensures e !in DieAll(w, es).nodes
  {
    if es != [] { StillGone(w, es[..|es| - 1], e); }
  }

  lemma {:induction false} DeathStays(w: World, es: seq<Entity>, e: Entity)
    requires e in w.nodes
    ensures Stays(w, DieAll(w, es), e)
  {
    if es != [] {
      var x, last := DieAll(w, es[..|es| - 1]), es[|es| - 1];
      DeathStays(w, es[..|es| - 1], e);
      if last in x.nodes { DeathExactly(x, last); }
    }
  }

  /** Streaming takes no agent, and changes nobody who stays. */
  lemma SceneDecides(w: World, t: Circumstances, e: Entity)
    requires WorldOk(w) && VisitsOnce(t.exposures) && e in w.nodes
    ensures var x, z := Stricken(w, t), Tick(w, t);
            && e < x.next && (e in z.nodes ==> e in x.nodes && z.nodes[e] == x.nodes[e])
            && (IsAgent(z, e) <==> IsAgent(x, e))
            && (w.step % 120 != 0 ==> z.nodes == x.nodes)
  {
    var x, z := Stricken(w, t), Tick(w, t);
    StrickenOk(w, t);
    StrickenLater(w, t);
    if w.step % 120 == 0 {
      StreamedOld(x, t.scatter, e);
      StreamStep(x, t.scatter);
      TickStreams(w, t);
    }
  }

  lemma StrickenLater(w: World, t: Circumstances)
    requires WorldOk(w) && VisitsOnce(t.exposures)
    ensures w.next <= Stricken(w, t).next
  {
    PrePhysicsStep(w, t);
    StepSound(w, PrePhysics(w, t));
    LossesStep(PrePhysics(w, t), t);
    SoundCompose(w, PrePhysics(w, t), Stricken(w, t));
  }

  // ---------------------------------------------------------------- who falls apart

  /** The blow takes so much of its victim's structure that it crumbles. */
  predicate Shatters(w: World, x: Impact, e: Entity) {
    && x.victim == e && e in w.nodes && x.impulse > 0.0
    && var n := w.nodes[e];
       && n.stress + x.impulse > n.yieldAt
       && Crumbles(n.(structure := n.structure - (n.stress + x.impulse - n.yieldAt) / 4.0))
  }

  lemma BlowQueues(w: World, x: Impact, e: Entity)
    ensures Queued(ImpactOne(w, x).fragments, e) <==> Queued(w.fragments, e) || Shatters(w, x, e)
  {
    var z := ImpactOne(w, x);
    if x.victim !in w.nodes || x.impulse <= 0.0 {
      NoBlow(w, x);
    } else {
      BlowExactly(w, x);
      if |z.fragments| > |w.fragments| { QueuedOneMore(w.fragments, z.fragments, e); }
    }
  }

  lemma QueuedOneMore(a: seq<FragmentEntry>, b: seq<FragmentEntry>, e: Entity)
    requires |b| == |a| + 1 && a <= b
    ensures Queued(b, e) <==> Queued(a, e) || b[|a|].victim == e
  {
    if Queued(a, e) { QueuedStays(a, b, e); }
  }

  lemma {:induction false} BlowsQueue(w: World, xs: seq<Impact>, e: Entity)
    ensures Queued(ImpactAll(w, xs).fragments, e) <==>
            Queued(w.fragments, e) || exists i :: 0 <= i < |xs| && Shatters(ImpactAll(w, xs[..i]), xs[i], e)
  {
    if xs != [] {
      var n := |xs| - 1;
      var front := xs[..n];
      BlowsQueue(w, front, e);
      BlowQueues(ImpactAll(w, front), xs[n], e);
      forall i | 0 <= i < n ensures front[..i] == xs[..i] && front[i] == xs[i] {}
      if i :| 0 <= i < |xs| && Shatters(ImpactAll(w, xs[..i]), xs[i], e) {
        assert i == n || Shatters(ImpactAll(w, front[..i]), front[i], e);
      }
      if i :| 0 <= i < n && Shatters(ImpactAll(w, front[..i]), front[i], e) {
        assert Shatters(ImpactAll(w, xs[..i]), xs[i], e);
      }
    }
  }

  lemma CalmQueue(w: World, t: Circumstances)
    requires WorldOk(w) && VisitsOnce(t.exposures)
    ensures Calm(w, t).fragments == Weathered(w, t).fragments
    ensures Beaten(w, t).fragments == ImpactAll(Calm(w, t), t.impacts).fragments
  {
    var c := Weathered(w, t);
    var d := HarvestAll(c, t.contacts);
    ActedStep(w, t);
    DrainKeeps(Acted(w, t), t.exposures);
    ShapeKeepsKeys(Acted(w, t), c);
    HarvestSteady(c, t.contacts);
    ShapeKeepsKeys(c, d);
    DischargesSteady(d, t.spikes);
    BirthsKeepQueue(Simulation.Fed(w, t), t.births);
    QueueLasts(w, t);
  }

  /**
   Who falls apart. A node is queued when fragmentation comes if and only if the drain pass left it
   crumbling, or a blow made it crumble.
   */
  lemma ShattersExactly(w: World, t: Circumstances, e: Entity)
    requires WorldOk(w) && VisitsOnce(t.exposures) && e in w.nodes && !w.nodes[e].dead
    ensures Queued(Beaten(w, t).fragments, e) <==>
            || (Visits(t.exposures, e) && e in Weathered(w, t).nodes && Crumbles(Weathered(w, t).nodes[e]))
            || exists i :: 0 <= i < |t.impacts| && Shatters(ImpactAll(Calm(w, t), t.impacts[..i]), t.impacts[i], e)
  {
    ActedTouches(w, t, e);
    DrainJudges(Acted(w, t), t.exposures, e);
    if Visits(t.exposures, e) {
      var k :| 0 <= k < |t.exposures| && t.exposures[k].entity == e;
      assert Effects.Meets(Acted(w, t), t.exposures[k], e);
    }
    CalmQueue(w, t);
    BlowsQueue(Calm(w, t), t.impacts, e);
  }

  // ---------------------------------------------------------------- life and death

  /** The pass comes to the node, and leaves it without a reserve. */
  predicate Starves(w: World, t: Circumstances, e: Entity) {
    Visits(t.exposures, e) && e in Weathered(w, t).nodes && Weathered(w, t).nodes[e].account.energy <= 0.0
  }

  lemma StarvesIs(w: World, t: Circumstances, e: Entity)
    requires WorldOk(w) && VisitsOnce(t.exposures) && IsAgent(w, e)
    ensures e in Weathered(w, t).deaths <==> Starves(w, t, e)
  {
    ActedTouches(w, t, e);
    assert NodeOk(w.nodes[e]);
    DrainJudges(Acted(w, t), t.exposures, e);
    if Visits(t.exposures, e) {
      var k :| 0 <= k < |t.exposures| && t.exposures[k].entity == e;
      assert Effects.Meets(Acted(w, t), t.exposures[k], e);
    }
  }

  /**
   Life and death. An agent is one no more after a tick if and only if the drain pass came to it
   and left it without a reserve, whatever it was credited since, or it was queued to fall apart.
   Who starves without falling apart is dead, and its body stays where it is.
   */
  lemma LivesExactly(w: World, t: Circumstances, e: Entity)
    requires WorldOk(w) && VisitsOnce(t.exposures) && IsAgent(w, e)
    ensures var z, shattered := Tick(w, t), Queued(Beaten(w, t).fragments, e);
            && (IsAgent(z, e) <==> !Starves(w, t, e) && !shattered)
            && (shattered ==> e !in z.nodes)
            && (Starves(w, t, e) && !shattered && w.step % 120 != 0 ==>
                  e in z.nodes && z.nodes[e].dead && z.nodes[e].agent.None?)
  {
    StarvesIs(w, t, e);
    ActedTouches(w, t, e);
    DrainTouches(Acted(w, t), t.exposures, e);
    WeatheredTouches(w, t, e);
    BeatenTouches(w, t, e);
    LossesDecide(w, t, e);
    SceneDecides(w, t, e);
  }

  // ---------------------------------------------------------------- books and places

  /** All the passes of a tick, as far as a node that outlasts it is concerned. */
  lemma Passes(w: World, t: Circumstances, e: Entity)
    requires WorldOk(w) && VisitsOnce(t.exposures) && e in w.nodes && e in Tick(w, t).nodes
    ensures Touches(w, Acted(w, t), e, {Flow.Actuation, Flow.Fabrication})
    ensures Touches(Acted(w, t), Weathered(w, t), e, {Vented, Dissipated})
    ensures Touches(Weathered(w, t), PrePhysics(w, t), e, {Transferred, Harvested, Offspring})
    ensures Touches(PrePhysics(w, t), Beaten(w, t), e, {Transferred, Consumed})
    ensures Stays(Beaten(w, t), Tick(w, t), e)
    ensures Beaten(w, t).nodes[e].x == t.motion(e).dx && Beaten(w, t).nodes[e].y == t.motion(e).dy
  {
    ActedTouches(w, t, e);
    DrainTouches(Acted(w, t), t.exposures, e);
    WeatheredTouches(w, t, e);
    BeatenTouches(w, t, e);
    LossesDecide(w, t, e);
    SceneDecides(w, t, e);
  }

  /** What the pass that comes to the node takes and gives; nothing if it does not come. */
  ghost predicate Weathering(w: World, n: Node, z: Node, xs: seq<Exposure>, e: Entity) {
    if exists i :: 0 <= i < |xs| && Effects.Meets(w, xs[i], e) then
      exists i :: 0 <= i < |xs| && Effects.Meets(w, xs[i], e) && Weathers(n, z, Gain(n, xs[i]), Loss(n, xs[i]))
    else Weathers(n, z, 0.0, 0.0)
  }

  lemma WeatherAlong(w: World, a: World, c: World, p: World, k: World, z: World, xs: seq<Exposure>, e: Entity)
    requires Touches(w, a, e, {Flow.Actuation, Flow.Fabrication}) && Judged(a, c, xs, e)
    requires Touches(c, p, e, {Transferred, Harvested, Offspring}) && Touches(p, k, e, {Transferred, Consumed})
    requires Stays(k, z, e)
    ensures Weathering(w, w.nodes[e], z.nodes[e], xs, e)
  {
    forall i | 0 <= i < |xs| ensures Effects.Meets(a, xs[i], e) <==> Effects.Meets(w, xs[i], e) {}
    if i :| 0 <= i < |xs| && Effects.Meets(w, xs[i], e) {
      assert Effects.Meets(a, xs[i], e);
      var m :| 0 <= m < |xs| && Effects.Meets(a, xs[m], e) && Drained(a.nodes[e], c.nodes[e], xs[m]);
      WeatherOne(w, a, c, p, k, z, xs[m], e);
    }
  }

  lemma WeatherOne(w: World, a: World, c: World, p: World, k: World, z: World, x: Exposure, e: Entity)
    requires Touches(w, a, e, {Flow.Actuation, Flow.Fabrication}) && e in c.nodes && Drained(a.nodes[e], c.nodes[e], x)
    requires Touches(c, p, e, {Transferred, Harvested, Offspring}) && Touches(p, k, e, {Transferred, Consumed})
    requires Stays(k, z, e)
    ensures Weathers(w.nodes[e], z.nodes[e], Gain(w.nodes[e], x), Loss(w.nodes[e], x))
  {
  }

  /**
   The surroundings are the only thing that makes a node vent and dissipate in a tick, by exactly
   what they take.
   */
  lemma WeatherOfTick(w: World, t: Circumstances, e: Entity)
    requires WorldOk(w) && VisitsOnce(t.exposures) && e in w.nodes && e in Tick(w, t).nodes
    ensures Weathering(w, w.nodes[e], Tick(w, t).nodes[e], t.exposures, e)
  {
    Passes(w, t, e);
    DrainJudges(Acted(w, t), t.exposures, e);
    WeatherAlong(w, Acted(w, t), Weathered(w, t), PrePhysics(w, t), Beaten(w, t), Tick(w, t), t.exposures, e);
  }

  /** Which entries agree between which stages. */
  ghost predicate BookedBy(w: World, a: World, c: World, p: World, z: World, e: Entity, f: Flow) {
    && e in w.nodes && e in a.nodes && e in c.nodes && e in p.nodes && e in z.nodes
    && (f.Actuation? || f.Fabrication? ==> Entry(z.nodes[e].account.ledger, f) == Entry(a.nodes[e].account.ledger, f))
    && (f.Harvested? || f.Offspring? ==>
          && Entry(z.nodes[e].account.ledger, f) == Entry(p.nodes[e].account.ledger, f)
          && Entry(c.nodes[e].account.ledger, f) == Entry(w.nodes[e].account.ledger, f))
    && (f.Consumed? ==> Entry(p.nodes[e].account.ledger, f) == Entry(w.nodes[e].account.ledger, f))
  }

  lemma BookedAlong(w: World, a: World, c: World, p: World, k: World, z: World, e: Entity, f: Flow)
    requires Touches(w, a, e, {Flow.Actuation, Flow.Fabrication}) && Touches(a, c, e, {Vented, Dissipated})
    requires Touches(c, p, e, {Transferred, Harvested, Offspring}) && Touches(p, k, e, {Transferred, Consumed})
    requires Stays(k, z, e)
    ensures BookedBy(w, a, c, p, z, e, f)
  {
  }

  /**
   Which systems a node's entries come from: actuation and structures from efforts and commands
   alone, harvests and offspring from what comes between the drain pass and physics, consumption
   from what comes after; and the node is where physics has put it.
   */
  lemma BooksOfTick(w: World, t: Circumstances, e: Entity, f: Flow)
    requires WorldOk(w) && VisitsOnce(t.exposures) && e in w.nodes && e in Tick(w, t).nodes
    ensures BookedBy(w, Acted(w, t), Weathered(w, t), PrePhysics(w, t), Tick(w, t), e, f)
    ensures Tick(w, t).nodes[e].x == t.motion(e).dx && Tick(w, t).nodes[e].y == t.motion(e).dy
  {
    Passes(w, t, e);
    BookedAlong(w, Acted(w, t), Weathered(w, t), PrePhysics(w, t), Beaten(w, t), Tick(w, t), e, f);
  }

  predicate Weathers(n: Node, m: Node, gain: real, loss: real) {
    && Entry(m.account.ledger, Vented) == Entry(n.account.ledger, Vented) + gain
    && Entry(m.account.ledger, Dissipated) == Entry(n.account.ledger, Dissipated) + loss
  }

  // ---------------------------------------------------------------- the record

  /** The record of a living agent after a tick is of the books it has then. */
  lemma RecordedBooks(w: World, t: Circumstances, e: Entity)
    requires IsAgent(Tick(w, t), e)
    ensures var z := Tick(w, t);
            && e in z.active && z.active[e].generation == z.nodes[e].agent.value.generation
            && z.active[e].ledger == z.nodes[e].account.ledger
  {
  }

  /**
   The last word on an agent: one that was alive after one tick and is not after the next is
   reported with the generation and the books it had at the end of the former, at the step of the
   latter.
   */
  lemma LastWord(w: World, t: Circumstances, u: Circumstances, e: Entity)
    requires WorldOk(w) && VisitsOnce(t.exposures) && VisitsOnce(u.exposures)
    requires IsAgent(Tick(w, t), e) && !IsAgent(Tick(Tick(w, t), u), e)
    ensures var x, z := Tick(w, t), Tick(Tick(w, t), u);
            exists i :: 0 <= i < |z.completed| &&
              z.completed[i] == Outcome(e, x.nodes[e].agent.value.generation, x.nodes[e].account.ledger,
                                        AtMost(U32_MAX, z.step))
  {
    var x := Tick(w, t);
    TickKeeps(w, t);
    RecordedBooks(w, t, e);
    SceneDecides(x, u, e);
    StreamTickedAt(x, u);
    Reports(x, AdvanceClock(StreamChunks(Stricken(x, u), u.scatter)), e);
  }

  /** Recording a world without the agent reports its last record. */
  lemma Reports(x: World, y: World, e: Entity)
    requires e in x.active && y.active == x.active && e < y.next && !IsAgent(y, e)
    ensures exists i :: 0 <= i < |RecordHistory(y).completed| &&
              RecordHistory(y).completed[i] ==
                Outcome(e, x.active[e].generation, x.active[e].ledger, AtMost(U32_MAX, y.step))
  {
    NewOutcomesHave(y, y.next, e);
    NewOutcomesAre(y, y.next);
    var i :| 0 <= i < |NewOutcomes(y, y.next)| && NewOutcomes(y, y.next)[i].entity == e;
    assert RecordHistory(y).completed[|y.completed| + i] == NewOutcomes(y, y.next)[i];
  }

  lemma StreamTickedAt(w: World, t: Circumstances)
    requires WorldOk(w) && VisitsOnce(t.exposures)
    ensures Ticked(w, StreamChunks(Stricken(w, t), t.scatter))
  {
    PrePhysicsStep(w, t);
    StepSound(w, PrePhysics(w, t));
    LossesStep(PrePhysics(w, t), t);
    SoundCompose(w, PrePhysics(w, t), Stricken(w, t));
    StreamTicked(w, Stricken(w, t), t.scatter);
  }

  // ---------------------------------------------------------------- chunks, tick by tick

  /**
   The clock goes on by one. On every 120th step the active chunks become those that a living
   agent stands in or next to; on any other they stay as they are.
   */
  lemma ChunksOfTick(w: World, t: Circumstances)
    requires WorldOk(w) && VisitsOnce(t.exposures)
    ensures var z := Tick(w, t);
            && (w.step < U64_MAX ==> z.step == w.step + 1)
            && (if w.step % 120 == 0 then
                  forall c :: c in z.chunks <==> AgentAround(z, c)
                else z.chunks == w.chunks)
  {
    ClockOfTick(w, t);
    if w.step % 120 == 0 {
      StreamedChunks(w, t);
    } else {
      StrickenChunks(w, t);
    }
  }

  lemma ClockOfTick(w: World, t: Circumstances)
    requires WorldOk(w) && VisitsOnce(t.exposures)
    ensures w.step < U64_MAX ==> Tick(w, t).step == w.step + 1
    ensures w.step % 120 != 0 ==> Tick(w, t).chunks == Stricken(w, t).chunks
  {
    StrickenOk(w, t);
    StreamTickedAt(w, t);
  }

  lemma StreamedChunks(w: World, t: Circumstances)
    requires WorldOk(w) && VisitsOnce(t.exposures) && w.step % 120 == 0
    ensures forall c :: c in Tick(w, t).chunks <==> AgentAround(Tick(w, t), c)
  {
    var z := Tick(w, t);
    TickKeeps(w, t);
    StreamingTick(w, t);
    forall c ensures c in z.chunks <==> AgentAround(z, c) { NearIsAround(z, c); }
  }

  lemma StrickenChunks(w: World, t: Circumstances)
    requires WorldOk(w) && VisitsOnce(t.exposures)
    ensures Stricken(w, t).chunks == w.chunks
  {
    PrePhysicsStep(w, t);
    StepSound(w, PrePhysics(w, t));
    LossesStep(PrePhysics(w, t), t);
    SoundCompose(w, PrePhysics(w, t), Stricken(w, t));
  }
}
