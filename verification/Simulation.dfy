/**
 The fixed step of the simulation: its systems in their order, runs of it, and what every run
 conserves and keeps.
 */
module Simulation {
  import opened Wrappers
  import opened Energy
  import opened World
  import opened Economy
  import opened Actuation
  import opened Lineage
  import opened Failure
  import opened Genesis
  import opened Restoration

  /** What one tick takes from agents, fields, physics and random streams. */
  datatype Circumstances = Circumstances(
    efforts: seq<Effort>, commands: seq<Command>, exposures: seq<Exposure>, contacts: seq<Contact>, spikes: seq<Spike>,
    births: seq<BirthDraw>, motion: Entity -> Offset, impacts: seq<Impact>, splits: Entity -> SplitDraw,
    scatter: Scatter)

  /** The world once locomotion is paid for. */
  function Spent(w: World, t: Circumstances): World {
    SpendEfforts(Cleanup(w), t.efforts)
  }

  /** The world as the drain pass finds it. */
  function Acted(w: World, t: Circumstances): World {
    ApplyAll(Spent(w, t), t.commands)
  }

  function Nourish(w: World, t: Circumstances): World {
    DischargeAll(HarvestAll(DrainAll(w, t.exposures), t.contacts), t.spikes)
  }

  /** The world as reproduction finds it. */
  function Fed(w: World, t: Circumstances): World {
    Nourish(Acted(w, t), t)
  }

  /** The systems before physics. */
  function PrePhysics(w: World, t: Circumstances): World {
    ReproduceAll(Fed(w, t), t.births)
  }

  function Moved(n: Node, to: Offset): Node {
    n.(x := to.dx, y := to.dy)
  }

  function Move(w: World, motion: Entity -> Offset): World {
    w.(nodes := map e | e in w.nodes :: Moved(w.nodes[e], motion(e)))
  }

  function Collide(w: World, t: Circumstances): World {
    var hit := ImpactAll(RelaxStress(Move(w, t.motion)), t.impacts);
    ConsumeAll(hit, hit.fragments)
  }

  function AdvanceClock(w: World): World {
    w.(step := if w.step < U64_MAX then w.step + 1 else w.step)
  }

  function PostPhysics(w: World, t: Circumstances): World {
    var died := RunDeaths(RunFragmentation(Collide(w, t), t.splits));
    RecordHistory(AdvanceClock(StreamChunks(died, t.scatter)))
  }

  function Tick(w: World, t: Circumstances): World {
    PostPhysics(PrePhysics(w, t), t)
  }

  // ---------------------------------------------------------------- before physics

  lemma SteadyStep(w: World, z: World)
    requires Good(w) && Steady(w, z, 0.0)
    ensures Step(w, z)
  {
    ShapeStep(w, z);
  }

  lemma SpentStep(w: World, t: Circumstances)
    requires Good(w)
    ensures Step(w, Spent(w, t)) && Spent(w, t).fragments == w.fragments && JointsExact(Spent(w, t))
    ensures Steady(Cleanup(w), Spent(w, t), 0.0)
  {
    CleanupExact(w);
    EffortsSteady(Cleanup(w), t.efforts);
    SteadyStep(Cleanup(w), Spent(w, t));
    StepCompose(w, Cleanup(w), Spent(w, t));
  }

  lemma ActedStep(w: World, t: Circumstances)
    requires Good(w) && w.fragments == []
    ensures Step(w, Acted(w, t)) && JointsExact(Acted(w, t)) && Acted(w, t).fragments == []
  {
    SpentStep(w, t);
    ActuatorsStep(Spent(w, t), t.commands);
    StepCompose(w, Spent(w, t), Acted(w, t));
  }

  lemma FedStep(w: World, t: Circumstances)
    requires Good(w) && w.fragments == [] && VisitsOnce(t.exposures)
    ensures Step(w, Nourish(w, t)) && QueueOk(Nourish(w, t))
  {
    var drained := DrainAll(w, t.exposures);
    var fed := HarvestAll(drained, t.contacts);
    var z := Nourish(w, t);
    DrainKeeps(w, t.exposures);
    SteadyStep(w, drained);
    HarvestSteady(drained, t.contacts);
    SteadyStep(drained, fed);
    ShapeKeepsQueue(drained, fed);
    StepCompose(w, drained, fed);
    DischargesSteady(fed, t.spikes);
    SteadyStep(fed, z);
    ShapeKeepsQueue(fed, z);
    StepCompose(w, fed, z);
  }

  /**
   All systems before physics: from cleanup on, live joints and held clamps correspond one
   to one, and what is queued to fall apart can.
   */
  lemma PrePhysicsStep(w: World, t: Circumstances)
    requires Good(w) && w.fragments == [] && VisitsOnce(t.exposures)
    ensures var z := PrePhysics(w, t);
            Step(w, z) && JointsExact(z) && QueueOk(z)
  {
    ActedStep(w, t);
    FedStep(Acted(w, t), t);
    StepCompose(w, Acted(w, t), Fed(w, t));
    BirthsStep(Fed(w, t), t.births);
    StepCompose(w, Fed(w, t), PrePhysics(w, t));
  }

  // ---------------------------------------------------------------- after physics

  lemma MoveSteady(w: World, motion: Entity -> Offset)
    requires Keyed(w)
    ensures Steady(w, Move(w, motion), 0.0) && Gentle(w, Move(w, motion)) && Move(w, motion).fragments == w.fragments
  {
    SumAgree(w.nodes, Move(w, motion).nodes, w.next);
  }

  lemma CollideStep(w: World, t: Circumstances)
    requires Good(w) && QueueOk(w)
    ensures Step(w, Collide(w, t)) && QueueOk(Collide(w, t))
  {
    var moved := Move(w, t.motion);
    var calm := RelaxStress(moved);
    var hit := ImpactAll(calm, t.impacts);
    var z := Collide(w, t);
    MoveSteady(w, t.motion);
    SteadyStep(w, moved);
    ShapeKeepsQueue(w, moved);
    RelaxSteady(moved);
    SteadyStep(moved, calm);
    ShapeKeepsQueue(moved, calm);
    StepCompose(w, moved, calm);
    ImpactsKeep(calm, t.impacts);
    SteadyStep(calm, hit);
    StepCompose(w, calm, hit);
    ConsumeSteady(hit, hit.fragments);
    SteadyStep(hit, z);
    ShapeKeepsQueue(hit, z);
    StepCompose(w, hit, z);
  }

  lemma DeathsStep(w: World)
    requires Good(w)
    ensures var z := RunDeaths(w);
            Sound(w, z) && z.fragments == w.fragments && z.deaths == []
  {
    var x := w.(deaths := []);
    forall e | e in x.nodes ensures HoldOk(x, e) && NodeOk(x.nodes[e]) { assert HoldOk(w, e) && NodeOk(w.nodes[e]); }
    assert Sound(w, x);
    DeathsAllStep(x, w.deaths);
    SoundCompose(w, x, RunDeaths(w));
  }

  /** Collisions, consumption, fragmentation and death; the queues are empty afterwards. */
  lemma LossesStep(w: World, t: Circumstances)
    requires Good(w) && QueueOk(w)
    ensures var z := RunDeaths(RunFragmentation(Collide(w, t), t.splits));
            Sound(w, z) && z.fragments == [] && z.deaths == []
  {
    var hit := Collide(w, t);
    var split := RunFragmentation(hit, t.splits);
    CollideStep(w, t);
    StepSound(w, hit);
    FragmentationStep(hit, t.splits);
    SoundCompose(w, hit, split);
    DeathsStep(split);
    SoundCompose(w, split, RunDeaths(split));
  }

  /** What a tick has done by the time the clock advances. */
  ghost predicate Ticked(w: World, z: World) {
    && Good(z) && Conserves(w, z) && Unrecorded(w, z) && ChunksOk(z)
    && z.fragments == [] && z.deaths == [] && z.step == w.step
  }

  lemma StreamTicked(w: World, x: World, scatter: Scatter)
    requires Keyed(w) && ChunksOk(w) && Sound(w, x) && x.fragments == [] && x.deaths == []
    ensures Ticked(w, StreamChunks(x, scatter))
  {
    LawfulKeepsChunks(w, x);
    if x.step % STREAM_PERIOD == 0 {
      StreamStep(x, scatter);
      StreamKeepsChunks(x, scatter);
    }
  }

  lemma ClosedTick(w: World, x: World)
    requires Keyed(w) && RecordsOk(w) && Ticked(w, x)
    ensures var z := RecordHistory(AdvanceClock(x));
            && Good(z) && Conserves(w, z) && ChunksOk(z) && HistoryOk(z) && z.fragments == [] && z.deaths == []
  {
    var y, z := AdvanceClock(x), RecordHistory(AdvanceClock(x));
    RecordKeeps(w, y);
    forall e | e in z.nodes ensures HoldOk(z, e) && NodeOk(z.nodes[e]) { assert HoldOk(x, e) && NodeOk(x.nodes[e]); }
    forall c ensures |OriginSet(z, c)| <= TERRAIN_PER_CHUNK { assert OriginSet(z, c) == OriginSet(x, c); }
  }

  // ---------------------------------------------------------------- runs

  /** What holds whenever no tick is under way. */
  ghost predicate WorldOk(w: World) {
    Good(w) && ChunksOk(w) && RecordsOk(w) && w.fragments == [] && w.deaths == []
  }

  /** One tick keeps everything, conserves everything, and brings the history up to date. */
  lemma TickKeeps(w: World, t: Circumstances)
    requires WorldOk(w) && VisitsOnce(t.exposures)
    ensures WorldOk(Tick(w, t)) && HistoryOk(Tick(w, t)) && Conserves(w, Tick(w, t))
  {
    var pre := PrePhysics(w, t);
    var died := RunDeaths(RunFragmentation(Collide(pre, t), t.splits));
    PrePhysicsStep(w, t);
    StepSound(w, pre);
    LossesStep(pre, t);
    SoundCompose(w, pre, died);
    StreamTicked(w, died, t.scatter);
    ClosedTick(w, StreamChunks(died, t.scatter));
  }

  /**
   A tick passes; between ticks, testers may bring in agents, or the world may be captured and
   restored with its nodes in the order of their stable identities and some of the controllers.
   */
  datatype Event =
    | Pass(circumstances: Circumstances)
    | Arrival(x: real, y: real)
    | Restore(order: seq<Entity>, supplied: set<Entity>)

  /** The drain pass visits each node once, and a snapshot lists each node once. */
  ghost predicate Possible(w: World, event: Event) {
    match event
    case Pass(t) => VisitsOnce(t.exposures)
    case Arrival(_, _) => true
    case Restore(order, _) => Enumerates(order, w)
  }

  function Advance(w: World, event: Event): World {
    match event
    case Pass(t) => Tick(w, t)
    case Arrival(x, y) => SpawnAgent(w, x, y)
    case Restore(order, supplied) => Restored(w, order, supplied)
  }

  function Run(w: World, events: seq<Event>): World {
    if events == [] then w else Advance(Run(w, events[..|events| - 1]), events[|events| - 1])
  }

  ghost predicate Plausible(w: World, events: seq<Event>) {
    events == [] ||
    var front := events[..|events| - 1];
    Plausible(w, front) && Possible(Run(w, front), events[|events| - 1])
  }

  lemma ArrivalKeeps(w: World, x: real, y: real)
    requires WorldOk(w)
    ensures WorldOk(SpawnAgent(w, x, y)) && Conserves(w, SpawnAgent(w, x, y))
  {
    GenesisAgentOk(x, y);
    ArrivalsStep(w, [GenesisAgent(x, y)]);
    var z := SpawnAgent(w, x, y);
    forall e | e in w.active ensures e in Alive(z) { assert e in Alive(w); }
  }

  /** Every run keeps everything and conserves everything. */
  lemma {:induction false} RunKeeps(w: World, events: seq<Event>)
    requires WorldOk(w) && Plausible(w, events)
    ensures WorldOk(Run(w, events)) && Conserves(w, Run(w, events))
  {
    if events != [] {
      var front, event := events[..|events| - 1], events[|events| - 1];
      RunKeeps(w, front);
      match event
      case Pass(t) => TickKeeps(Run(w, front), t);
      case Arrival(x, y) => ArrivalKeeps(Run(w, front), x, y);
      case Restore(order, supplied) => RestoredOk(Run(w, front), order, supplied);
    }
  }

  // ---------------------------------------------------------------- the main results

  function Reserves(w: World): real {
    Sum(w.nodes, w.next).energy
  }

  function Matter(w: World): real {
    Sum(w.nodes, w.next).mass
  }

  /** The ledger entries of all nodes that ever were. */
  function Lifetime(w: World): Flows {
    AddFlows(Sum(w.nodes, w.next).flows, w.books.flows)
  }

  /** A world that some run from a fresh seeding arrives at. */
  ghost predicate Reachable(w: World) {
    exists x: nat, y: nat, places: Scatter, scatter: Scatter, events: seq<Event> ::
      Plausible(SeedWorld(x, y, places, scatter), events) && w == Run(SeedWorld(x, y, places, scatter), events)
  }

  lemma ConservesCompose(w: World, x: World, z: World)
    requires Conserves(w, x) && Conserves(x, z)
    ensures Conserves(w, z)
  {
  }

  lemma FromNothing(w: World)
    requires Conserves(EMPTY_WORLD, w)
    ensures StockOf(w) == Stock(0.0, 0.0, 0.0)
  {
  }

  /** So whatever holds of every world in order holds of every reachable one. */
  lemma ReachableOk(w: World)
    requires Reachable(w)
    ensures WorldOk(w) && StockOf(w) == Stock(0.0, 0.0, 0.0)
  {
    var x: nat, y: nat, places: Scatter, scatter: Scatter, events: seq<Event> :|
      Plausible(SeedWorld(x, y, places, scatter), events) && w == Run(SeedWorld(x, y, places, scatter), events);
    var seeded := SeedWorld(x, y, places, scatter);
    SeedOk(x, y, places, scatter);
    SeedConserves(x, y, places, scatter);
    RunKeeps(seeded, events);
    ConservesCompose(EMPTY_WORLD, seeded, w);
    FromNothing(w);
  }

  /**
   Energy changes hands but comes only from vents and from outside, and goes only into
   dissipation, actuation and out with the chunks; and all that was passed on was received.
   */
  lemma EnergyConserved(w: World, events: seq<Event>)
    requires WorldOk(w) && Plausible(w, events)
    ensures var z := Run(w, events);
            var before, after := Lifetime(w), Lifetime(z);
            var a, b := w.books.streamed, z.books.streamed;
            && Reserves(z) == Reserves(w) + (after.vented - before.vented) - (after.dissipated - before.dissipated)
                            - (after.actuation - before.actuation)
                            + (b.energyIn - a.energyIn) - (b.energyOut - a.energyOut)
            && after.transit == before.transit
            && Matter(z) == Matter(w) + (b.massIn - a.massIn) - (b.massOut - a.massOut)
  {
    RunKeeps(w, events);
  }

  /** From a fresh seeding on, the balance is absolute. */
  lemma EnergyBalance(w: World)
    requires Reachable(w)
    ensures var all, s := Lifetime(w), w.books.streamed;
            && Reserves(w) == s.energyIn - s.energyOut + all.vented - all.dissipated - all.actuation
            && all.transit == 0.0
            && Matter(w) == s.massIn - s.massOut
  {
    ReachableOk(w);
  }

  /** Each node's own books explain its energy. */
  lemma NodeIdentity(w: World, e: Entity)
    requires WorldOk(w) && e in w.nodes
    ensures var n, l := w.nodes[e], w.nodes[e].account.ledger;
            n.account.energy == n.birth + l.income.harvested + l.income.consumed + l.income.vented
                                - l.outlay.dissipated - l.outlay.actuation - l.invested.fabrication
                                - l.invested.offspring - l.outlay.transferred
  {
    assert NodeOk(w.nodes[e]);
  }

  lemma {:induction false} HeavyAtMost(w: World, n: nat)
    requires NodesOk(w)
    ensures Sum(w.nodes, n).heavy as real <= Sum(w.nodes, n).mass * 20.0
  {
    if n > 0 {
      HeavyAtMost(w, n - 1);
      if n - 1 in w.nodes { assert NodeOk(w.nodes[n - 1]); }
    }
  }

  lemma {:induction false} HeavyAtLeast(w: World, n: nat)
    ensures Sum(w.nodes, n).heavy >= 0
  {
    if n > 0 { HeavyAtLeast(w, n - 1); }
  }

  /**
   Fragmentation cannot go on for ever: in any run, with births and fabrications, there are
   at most as many fragmentations as minimal daughters in the mass there was and came in.
   */
  lemma FragmentationBound(w: World, events: seq<Event>)
    requires WorldOk(w) && Plausible(w, events)
    ensures var z := Run(w, events);
            (z.books.splits - w.books.splits) as real
            <= (Matter(w) + z.books.streamed.massIn - w.books.streamed.massIn) / MIN_DAUGHTER_MASS
  {
    var z := Run(w, events);
    RunKeeps(w, events);
    HeavyAtMost(z, z.next);
    HeavyAtLeast(w, w.next);
    assert Potential(z) <= Potential(w);
  }

  /**
   The joint graph: a clamp has a target exactly if it has a joint
   and has cooled down while it holds; a live joint it holds is its own, on that target; no
   two agents share one. From cleanup on, until physics, joints and grips match one to one.
   */
  lemma JointIntegrity(w: World, t: Circumstances)
    requires WorldOk(w) && VisitsOnce(t.exposures)
    ensures forall e | IsAgent(w, e) :: ClampOk(GripOf(w, e)) && HoldOk(w, e)
    ensures forall e, f | IsAgent(w, e) && IsAgent(w, f) && Held(w, e).Some? && Held(w, e) == Held(w, f) :: e == f
    ensures JointsExact(Cleanup(w)) && JointsExact(PrePhysics(w, t))
  {
    forall e | IsAgent(w, e) ensures ClampOk(GripOf(w, e)) && HoldOk(w, e) {
      assert NodeOk(w.nodes[e]) && HoldOk(w, e);
    }
    forall e, f | IsAgent(w, e) && IsAgent(w, f) && Held(w, e).Some? && Held(w, e) == Held(w, f) ensures e == f {
      NoSharedJoints(w, e, f);
    }
    CleanupExact(w);
    PrePhysicsStep(w, t);
  }

  /**
   Across a restore: joints and grips correspond one to one at once exactly if the controller
   of every agent that held a node still there is supplied, and after the first cleanup
   whatever is supplied.
   */
  lemma RestoreIntegrity(w: World, order: seq<Entity>, supplied: set<Entity>)
    requires WorldOk(w) && Possible(w, Restore(order, supplied))
    ensures var z := Advance(w, Restore(order, supplied));
            && WorldOk(z) && JointsExact(Cleanup(z))
            && (JointsExact(z) <==> forall e | e in w.nodes && Grasps(w, e) :: e in supplied)
  {
    RestoredOk(w, order, supplied);
    RestoredExact(w, order, supplied);
    CleanupExact(Restored(w, order, supplied));
  }

  /** The world as the blows find it. */
  function Calm(w: World, t: Circumstances): World {
    RelaxStress(Move(PrePhysics(w, t), t.motion))
  }

  /** No system in between takes a victim off the queue. */
  lemma QueueLasts(w: World, t: Circumstances)
    requires WorldOk(w) && VisitsOnce(t.exposures)
    ensures DrainAll(Acted(w, t), t.exposures).fragments <= Calm(w, t).fragments
    ensures ImpactAll(Calm(w, t), t.impacts).fragments == Collide(PrePhysics(w, t), t).fragments
  {
    var drained := DrainAll(Acted(w, t), t.exposures);
    var fed, hit := HarvestAll(drained, t.contacts), ImpactAll(Calm(w, t), t.impacts);
    ActedStep(w, t);
    DrainKeeps(Acted(w, t), t.exposures);
    ShapeKeepsKeys(Acted(w, t), drained);
    HarvestSteady(drained, t.contacts);
    ShapeKeepsKeys(drained, fed);
    DischargesSteady(fed, t.spikes);
    BirthsKeepQueue(Fed(w, t), t.births);
    HitKeyed(w, t);
    ConsumeSteady(hit, hit.fragments);
  }

  lemma ShatteredGone(w: World, z: World, queue: seq<FragmentEntry>, e: Entity)
    requires Shattered(w, z, queue) && Queued(queue, e)
    ensures e !in z.nodes
  {
    var i :| 0 <= i < |queue| && queue[i].victim == e;
  }

  lemma HitKeyed(w: World, t: Circumstances)
    requires WorldOk(w) && VisitsOnce(t.exposures)
    ensures Keyed(ImpactAll(Calm(w, t), t.impacts))
  {
    var pre := PrePhysics(w, t);
    var moved := Move(pre, t.motion);
    PrePhysicsStep(w, t);
    MoveSteady(pre, t.motion);
    ShapeKeepsKeys(pre, moved);
    ShapeKeepsQueue(pre, moved);
    RelaxSteady(moved);
    ShapeKeepsKeys(moved, Calm(w, t));
    ShapeKeepsQueue(moved, Calm(w, t));
    ImpactsKeep(Calm(w, t), t.impacts);
    ShapeKeepsKeys(Calm(w, t), ImpactAll(Calm(w, t), t.impacts));
  }

  /**
   Whatever fails in a tick falls apart in it: a node that fails in the drain pass, and one
   that breaks under a blow, is gone once fragmentation has run, whatever the systems in
   between did to it. Exactly the queued nodes are gone, and each has been counted.
   */
  lemma QueuedVictimsSplit(w: World, t: Circumstances)
    requires WorldOk(w) && VisitsOnce(t.exposures)
    ensures var hit := Collide(PrePhysics(w, t), t);
            var z := RunFragmentation(hit, t.splits);
            && QueueOk(hit) && Shattered(hit, z, hit.fragments)
            && (forall i | 0 <= i < |t.exposures| && Withers(Acted(w, t), t.exposures[i]) ::
                  t.exposures[i].entity !in z.nodes)
            && (forall i | 0 <= i < |t.impacts| && Breaks(ImpactAll(Calm(w, t), t.impacts[..i]), t.impacts[i]) ::
                  t.impacts[i].victim !in z.nodes)
  {
    var hit := Collide(PrePhysics(w, t), t);
    var z := RunFragmentation(hit, t.splits);
    PrePhysicsStep(w, t);
    CollideStep(PrePhysics(w, t), t);
    FragmentationStep(hit, t.splits);
    QueueLasts(w, t);
    ImpactQueues(Calm(w, t), t.impacts);
    forall i | 0 <= i < |t.impacts| && Breaks(ImpactAll(Calm(w, t), t.impacts[..i]), t.impacts[i])
      ensures t.impacts[i].victim !in z.nodes
    {
      ShatteredGone(hit, z, hit.fragments, t.impacts[i].victim);
    }
    forall i | 0 <= i < |t.exposures| && Withers(Acted(w, t), t.exposures[i])
      ensures t.exposures[i].entity !in z.nodes
    {
      DrainQueues(Acted(w, t), t.exposures, t.exposures[i].entity);
      QueuedStays(DrainAll(Acted(w, t), t.exposures).fragments, hit.fragments, t.exposures[i].entity);
      ShatteredGone(hit, z, hit.fragments, t.exposures[i].entity);
    }
  }

  /** Terrain stays in active chunks, at most five nodes each. */
  lemma TerrainInChunks(w: World)
    requires WorldOk(w)
    ensures forall e | e in w.nodes && w.nodes[e].origin.Some? :: w.nodes[e].origin.value in w.chunks
    ensures forall c :: |OriginSet(w, c)| <= TERRAIN_PER_CHUNK
  {
  }

  /** The world as chunk streaming finds it. */
  function Stricken(w: World, t: Circumstances): World {
    RunDeaths(RunFragmentation(Collide(PrePhysics(w, t), t), t.splits))
  }

  lemma StrickenOk(w: World, t: Circumstances)
    requires WorldOk(w) && VisitsOnce(t.exposures)
    ensures Good(Stricken(w, t)) && ChunksOk(Stricken(w, t)) && Stricken(w, t).step == w.step
  {
    var pre, x := PrePhysics(w, t), Stricken(w, t);
    PrePhysicsStep(w, t);
    StepSound(w, pre);
    LossesStep(pre, t);
    SoundCompose(w, pre, x);
    LawfulKeepsChunks(w, x);
  }

  lemma TickStreams(w: World, t: Circumstances)
    requires Stricken(w, t).step % STREAM_PERIOD == 0
    ensures SameScene(Stream(Stricken(w, t), t.scatter), Tick(w, t))
  {
  }

  /**
   A streaming tick leaves exactly the chunks around living agents active, at most 45 terrain
   nodes for each agent, and every agent where it was.
   */
  lemma StreamingTick(w: World, t: Circumstances)
    requires WorldOk(w) && VisitsOnce(t.exposures) && w.step % STREAM_PERIOD == 0
    ensures var x, z := Stricken(w, t), Tick(w, t);
            && (forall c :: c in z.chunks <==> NearAgent(z, c, z.next))
            && |Settled(z)| <= 45 * |Alive(z)|
            && (forall e | IsAgent(x, e) :: e in z.nodes && z.nodes[e] == x.nodes[e])
  {
    StrickenOk(w, t);
    TickStreams(w, t);
    SceneChunks(Stricken(w, t), Tick(w, t), t.scatter);
    SceneTerrain(Stricken(w, t), Tick(w, t), t.scatter);
    SceneAgents(Stricken(w, t), Tick(w, t), t.scatter);
  }

  ghost predicate SameScene(s: World, z: World) {
    z.nodes == s.nodes && z.chunks == s.chunks && z.next == s.next
  }

  lemma SceneChunks(x: World, z: World, scatter: Scatter)
    requires Good(x) && ChunksOk(x) && SameScene(Stream(x, scatter), z)
    ensures forall c :: c in z.chunks <==> NearAgent(z, c, z.next)
  {
    StreamKeepsChunks(x, scatter);
    forall c ensures c in z.chunks <==> NearAgent(z, c, z.next) { SameAgents(z, Stream(x, scatter), c); }
  }

  lemma SceneAgents(x: World, z: World, scatter: Scatter)
    requires Good(x) && SameScene(Stream(x, scatter), z)
    ensures forall e | IsAgent(x, e) :: e in z.nodes && z.nodes[e] == x.nodes[e]
  {
    StreamStep(x, scatter);
  }

  lemma SceneTerrain(x: World, z: World, scatter: Scatter)
    requires Good(x) && ChunksOk(x) && SameScene(Stream(x, scatter), z)
    ensures |Settled(z)| <= 45 * |Alive(z)|
  {
    SceneAgents(x, z, scatter);
    TerrainBound(x, scatter);
    assert Settled(z) == Settled(Stream(x, scatter));
    forall e | e in Alive(x) ensures e in Alive(z) { assert IsAgent(x, e); }
    SubsetSize(Alive(x), Alive(z));
  }

  lemma SameAgents(w: World, z: World, c: Chunk)
    requires w.nodes == z.nodes && w.next == z.next
    ensures NearAgent(w, c, w.next) <==> NearAgent(z, c, z.next)
  {
  }

  /**
   After every tick the evaluator's view lists every agent that ended some tick alive exactly
   once, as living exactly when it is.
   */
  lemma HistoryExactlyOnce(w: World, t: Circumstances, step: nat)
    requires WorldOk(w) && VisitsOnce(t.exposures)
    ensures var z := Tick(w, t);
            var all := CollectCompetence(z, step);
            && z.active.Keys == Alive(z) && Alive(z) <= z.ever && w.ever <= z.ever
            && (forall i, j | 0 <= i < j < |all| :: all[i].entity != all[j].entity)
            && (forall e: Entity :: Reported(all, e) <==> e in z.ever)
            && (forall i | 0 <= i < |all| :: all[i].alive <==> IsAgent(z, all[i].entity))
  {
    TickKeeps(w, t);
    CompetenceExactlyOnce(Tick(w, t), step);
    EverGrows(w, t);
  }

  lemma EverGrows(w: World, t: Circumstances)
    requires WorldOk(w) && VisitsOnce(t.exposures)
    ensures w.ever <= Tick(w, t).ever
  {
    var pre := PrePhysics(w, t);
    PrePhysicsStep(w, t);
    StepSound(w, pre);
    LossesStep(pre, t);
    SoundCompose(w, pre, Stricken(w, t));
    StreamTicked(w, Stricken(w, t), t.scatter);
  }
}
