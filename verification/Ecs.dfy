/**
 The simulation as it runs: one store of components that the systems update in place, item by
 item. Each system is proved to do what its specification function says.
 */
module Ecs {
  import opened Wrappers
  import opened Energy
  import opened World
  import opened Economy
  import opened Actuation
  import opened Lineage
  import opened Failure
  import opened Genesis
  import opened Simulation

  class Ecs {
    var nodes: map<Entity, Node>
    var joints: map<Entity, Joint>
    var next: Entity
    var fragments: seq<FragmentEntry>
    var deaths: seq<Entity>
    var clock: nat
    var chunks: set<Chunk>
    var active: map<Entity, Recorded>
    var completed: seq<Outcome>
    ghost var makers: map<Entity, Entity>
    ghost var ever: set<Entity>
    ghost var books: Books

    constructor ()
      ensures State() == EMPTY_WORLD
    {
      nodes, joints, next, fragments, deaths, clock := map[], map[], 0, [], [], 0;
      chunks, active, completed := {}, map[], [];
      makers, ever, books := map[], {}, NO_BOOKS;
    }

    ghost function State(): World
      reads this
    {
      World(nodes, joints, next, fragments, deaths, clock, chunks, active, completed, makers, ever, books)
    }

    // -------------------------------------------------------------- clamp joints

    /** A joint is orphaned unless its owner is there and holds it. */
    method FindOrphans() returns (despawned: set<Entity>)
      ensures despawned == set j | j in joints && Orphaned(State(), j)
    {
      despawned := {};
      var pending := joints.Keys;
      while pending != {}
        invariant pending <= joints.Keys
        invariant despawned == set j | j in joints && j !in pending && Orphaned(State(), j)
      {
        var j :| j in pending;
        var owner := joints[j].owner;
        var matches := owner in nodes && nodes[owner].agent.Some? && nodes[owner].agent.value.clamp.joint == Some(j);
        if !matches { despawned := despawned + {j}; }
        pending := pending - {j};
      }
    }

    /** Clamps whose target or joint is gone are opened; the joints they held are to go. */
    method OpenDangling() returns (despawned: set<Entity>)
      modifies this`nodes
      ensures nodes == map e | e in old(nodes) ::
                         if Dangling(old(State()), e) then Opened(old(nodes[e])) else old(nodes[e])
      ensures despawned ==
              set e | e in old(nodes) && Dangling(old(State()), e) && Held(old(State()), e).Some? ::
                  Held(old(State()), e).value
    {
      ghost var w := State();
      despawned := {};
      var pending := nodes.Keys;
      while pending != {}
        invariant pending <= w.nodes.Keys && nodes.Keys == w.nodes.Keys
        invariant forall e | e in w.nodes ::
                    nodes[e] == if e !in pending && Dangling(w, e) then Opened(w.nodes[e]) else w.nodes[e]
        invariant despawned ==
                  set e | e in w.nodes && e !in pending && Dangling(w, e) && Held(w, e).Some? :: Held(w, e).value
      {
        var e :| e in pending;
        if nodes[e].agent.Some? {
          var clamp := nodes[e].agent.value.clamp;
          var targetExists := clamp.target.None? || clamp.target.value in nodes;
          var jointExists := clamp.joint.None? || clamp.joint.value in joints;
          if !targetExists || !jointExists {
            if clamp.joint.Some? { despawned := despawned + {clamp.joint.value}; }
            nodes := nodes[e := Opened(nodes[e])];
          }
        }
        pending := pending - {e};
      }
    }

    method CleanupClampJoints()
      modifies this
      ensures State() == Cleanup(old(State()))
    {
      var orphans := FindOrphans();
      var dropped := OpenDangling();
      joints := joints - (orphans + dropped);
    }

    // -------------------------------------------------------------- actions

    method ApplyAgentActions(efforts: seq<Effort>)
      modifies this
      ensures State() == SpendEfforts(old(State()), efforts)
    {
      ghost var w := State();
      for i := 0 to |efforts|
        invariant State() == SpendEfforts(w, efforts[..i])
      {
        assert efforts[..i + 1][..i] == efforts[..i];
        var x := efforts[i];
        if x.entity in nodes {
          var account := DebitedExact(nodes[x.entity].account, Flow.Actuation, Finite(x.size * 0.1));
          nodes := nodes[x.entity := nodes[x.entity].(account := account)];
        }
      }
      assert efforts[..|efforts|] == efforts;
    }

    method DriveOscillator(e: Entity, frequency: real)
      requires e in nodes
      modifies this`nodes
      ensures State() == Drive(old(State()), e, frequency)
    {
      var n := nodes[e];
      if n.oscillator.Some? {
        var cost := Finite(Abs(frequency - n.oscillator.value) * 0.005);
        if Affordable(n.account, Flow.Actuation, cost) {
          n := n.(account := DebitedExact(n.account, Flow.Actuation, cost));
          n := n.(oscillator := Some(n.oscillator.value +
              (frequency - n.oscillator.value) * (OSC_RESPONSE * FIXED_DT)));
          nodes := nodes[e := n];
        }
      }
    }

    method WriteClamp(e: Entity, clamp: Clamp)
      requires IsAgent(State(), e)
      modifies this`nodes
      ensures State() == SetClamp(old(State()), e, clamp)
    {
      nodes := nodes[e := nodes[e].(agent := Some(nodes[e].agent.value.(clamp := clamp)))];
    }

    method ReleaseClamp(e: Entity)
      requires IsAgent(State(), e)
      modifies this`nodes, this`joints
      ensures State() == Unhook(old(State()), e, CLAMP_COOLDOWN)
    {
      var joint := nodes[e].agent.value.clamp.joint;
      if joint.Some? { joints := joints - {joint.value}; }
      WriteClamp(e, Clamp(None, None, CLAMP_COOLDOWN));
    }

    method ApplyClamp(e: Entity, wanted: real, nearest: Option<Entity>)
      requires IsAgent(State(), e)
      modifies this
      ensures State() == Grip(old(State()), e, wanted, nearest)
    {
      var clamp := nodes[e].agent.value.clamp;
      if clamp.cooldown > 0.0 { clamp := clamp.(cooldown := clamp.cooldown - FIXED_DT); }
      var wantClamp := wanted > 0.5;
      if wantClamp && clamp.cooldown <= 0.0 {
        if clamp.target.None? && nearest.Some? && nearest.value in nodes && nearest.value != e {
          joints, makers := joints[next := Joint(e, nearest.value)], makers[next := e];
          clamp := clamp.(target := nearest, joint := Some(next));
          next := next + 1;
        }
        WriteClamp(e, clamp);
      } else if !wantClamp {
        if clamp.joint.Some? {
          ReleaseClamp(e);
        } else {
          WriteClamp(e, clamp.(target := None));
        }
      } else {
        WriteClamp(e, clamp);
      }
    }

    method HoldClamp(e: Entity)
      requires IsAgent(State(), e)
      modifies this
      ensures State() == Strain(old(State()), e)
    {
      var target := nodes[e].agent.value.clamp.target;
      if target.Some? {
        if target.value !in nodes {
          ReleaseClamp(e);
        } else {
          var account := DebitedAvailable(nodes[e].account, Flow.Actuation, Finite(CLAMP_DRAIN * FIXED_DT));
          nodes := nodes[e := nodes[e].(account := account)];
          if account.energy <= 0.0 { ReleaseClamp(e); }
        }
      }
    }

    method SpawnNode(n: Node) returns (e: Entity)
      modifies this`nodes, this`next
      ensures e == old(next) && State() == Spawn(old(State()), n)
    {
      e := next;
      nodes := nodes[e := n];
      next := next + 1;
    }

    method ApplyFabrication(e: Entity, trigger: real)
      requires IsAgent(State(), e)
      modifies this
      ensures State() == Fabricate(old(State()), e, trigger)
    {
      var n := nodes[e];
      var remaining := n.agent.value.fabricate;
      if remaining > 0.0 { remaining := remaining - FIXED_DT; }
      if trigger > 0.5 && remaining <= 0.0 && n.account.energy >= FABRICATE_ENERGY_COST
          && n.mass >= FABRICATE_MASS_COST {
        n := n.(account := DebitedExact(n.account, Flow.Fabrication, Finite(FABRICATE_ENERGY_COST)));
        n := n.(mass := n.mass - FABRICATE_MASS_COST);
        n := n.(agent := Some(n.agent.value.(fabricate := FABRICATE_COOLDOWN)));
        nodes := nodes[e := n];
        var structure := SpawnNode(Structure(n.x + 1.0, n.y));
      } else {
        nodes := nodes[e := n.(agent := Some(n.agent.value.(fabricate := remaining)))];
      }
    }

    method ApplyActuators(commands: seq<Command>)
      modifies this
      ensures State() == ApplyAll(old(State()), commands)
    {
      ghost var w := State();
      for i := 0 to |commands|
        invariant State() == ApplyAll(w, commands[..i])
      {
        assert commands[..i + 1][..i] == commands[..i];
        var c := commands[i];
        if c.entity in nodes {
          DriveOscillator(c.entity, c.frequency);
          if nodes[c.entity].agent.Some? {
            ApplyClamp(c.entity, c.clamp, c.nearest);
            HoldClamp(c.entity);
            ApplyFabrication(c.entity, c.fabricate);
          }
        }
      }
      assert commands[..|commands|] == commands;
    }

    // -------------------------------------------------------------- economy

    method QueueFragmentWithShare(e: Entity, killer: Option<Entity>, share: real)
      modifies this`fragments
      ensures State() == QueueFragment(old(State()), e, killer, share)
    {
      var queued := false;
      for i := 0 to |fragments|
        invariant queued == exists k :: 0 <= k < i && fragments[k].victim == e
        invariant fragments == old(fragments)
      {
        if fragments[i].victim == e { queued := true; }
      }
      if !queued { fragments := fragments + [FragmentEntry(e, killer, share)]; }
    }

    method ThermodynamicDrain(exposures: seq<Exposure>)
      modifies this
      ensures State() == DrainAll(old(State()), exposures)
    {
      ghost var w := State();
      for i := 0 to |exposures|
        invariant State() == DrainAll(w, exposures[..i])
      {
        assert exposures[..i + 1][..i] == exposures[..i];
        var x := exposures[i];
        if x.entity in nodes && !nodes[x.entity].dead { DrainEntity(x); }
      }
      assert exposures[..|exposures|] == exposures;
    }

    method ComputeDrain(n: Node, x: Exposure) returns (drain: real)
      ensures drain == DrainRate(n, x)
    {
      var thermalLoad := Max(x.thermal, 0.0);
      var shelterFactor := if x.sheltered then 0.25 else 1.0;
      drain := BASE_DRAIN * (1.0 + thermalLoad * shelterFactor) * (0.4 + 0.6 * n.conductivity);
    }

    method DrainEntity(x: Exposure)
      requires x.entity in nodes && !nodes[x.entity].dead
      modifies this
      ensures State() == DrainOne(old(State()), x)
    {
      var n := nodes[x.entity];
      var drain := ComputeDrain(n, x);
      if ThermalVent in n.tags {
        var thermalLoad := Max(x.thermal, 0.0);
        n := n.(account := Credited(n.account, Vented, Finite(2.0 * thermalLoad * FIXED_DT)));
        n := n.(structure := n.structure - 0.3 * thermalLoad * FIXED_DT);
      }
      n := n.(account := DrainedBy(n.account, Finite(drain * FIXED_DT)));
      assert n == DrainNode(nodes[x.entity], x);
      nodes := nodes[x.entity := n];
      FlagDepleted(x.entity);
    }

    method FlagDepleted(e: Entity)
      requires e in nodes
      modifies this
      ensures State() == Flag(old(State()), e, old(nodes[e]))
    {
      var n := nodes[e];
      if n.structure <= 0.0 && n.account.energy > 0.0 && CanFragment(n) {
        QueueFragmentWithShare(e, None, 0.0);
      } else if n.account.energy <= 0.0 && e !in deaths {
        deaths := deaths + [e];
      }
    }

    method KineticHarvest(contacts: seq<Contact>)
      modifies this
      ensures State() == HarvestAll(old(State()), contacts)
    {
      ghost var w := State();
      for i := 0 to |contacts|
        invariant State() == HarvestAll(w, contacts[..i])
      {
        assert contacts[..i + 1][..i] == contacts[..i];
        HarvestContact(contacts[i]);
      }
      assert contacts[..|contacts|] == contacts;
    }

    method HarvestContact(x: Contact)
      modifies this`nodes
      ensures State() == HarvestOne(old(State()), x)
    {
      if x.agent !in nodes || AgentTag !in nodes[x.agent].tags || x.other !in nodes || x.other == x.agent { return; }
      if EnergyConvertible !in nodes[x.other].tags { return; }
      if DistanceSquared(nodes[x.other], nodes[x.agent]) > 16.0 || x.speed < HARVEST_MIN_REL_SPEED { return; }
      var rate := HARVEST_RATE * (x.speed - HARVEST_MIN_REL_SPEED + 1.0) * FIXED_DT;
      var transfer := Min(rate, Max(nodes[x.other].account.energy, 0.0));
      if transfer > 0.0 { MoveEnergy(x.other, x.agent, transfer, Harvested); }
    }

    /** A debit from one account and a credit of what was debited to another. */
    method MoveEnergy(source: Entity, sink: Entity, amount: real, into: Flow)
      requires source in nodes && sink in nodes && source != sink
      modifies this`nodes
      ensures State() == Transfer(old(State()), source, sink, amount, into)
    {
      var n := nodes[source];
      var debited := AvailableAmount(n.account, Transferred, Finite(amount));
      nodes := nodes[source := n.(account := DebitedAvailable(n.account, Transferred, Finite(amount)))];
      nodes := nodes[sink := nodes[sink].(account := Credited(nodes[sink].account, into, Finite(debited)))];
    }

    method VolatileTrapDischarge(spikes: seq<Spike>)
      modifies this
      ensures State() == DischargeAll(old(State()), spikes)
    {
      ghost var w := State();
      for i := 0 to |spikes|
        invariant State() == DischargeAll(w, spikes[..i])
      {
        assert spikes[..i + 1][..i] == spikes[..i];
        DischargeTrap(spikes[i]);
      }
      assert spikes[..|spikes|] == spikes;
    }

    method WeighNeighbors(trap: Entity, near: seq<Nearby>) returns (weights: seq<Weight>, total: real)
      ensures weights == Weights(State(), trap, near) && total == TotalWeight(weights)
    {
      weights, total := [], 0.0;
      for i := 0 to |near|
        invariant weights == Weights(State(), trap, near[..i]) && total == TotalWeight(weights)
      {
        assert near[..i + 1][..i] == near[..i];
        var other := near[i].entity;
        if other != trap && other in nodes && AgentTag in nodes[other].tags {
          var w := 1.0 / Max(near[i].distance, 0.1);
          total := total + w;
          weights := weights + [Weight(other, w)];
          assert weights[..|weights| - 1] == Weights(State(), trap, near[..i]);
        }
      }
      assert near[..|near|] == near;
    }

    method DischargeTrap(x: Spike)
      modifies this`nodes
      ensures State() == DischargeOne(old(State()), x)
    {
      if x.trap !in nodes || VolatileTrap !in nodes[x.trap].tags { return; }
      var weights, total := WeighNeighbors(x.trap, x.near);
      if total <= 0.0 { return; }
      var n := nodes[x.trap];
      var release := Max(n.account.energy, 0.0) * VOLATILE_TRAP_DRAIN_FRACTION;
      if release <= 0.0 { return; }
      var released := AvailableAmount(n.account, Transferred, Finite(release));
      nodes := nodes[x.trap := n.(account := DebitedAvailable(n.account, Transferred, Finite(release)))];
      PayShares(weights, released, total);
    }

    method PayShares(weights: seq<Weight>, released: real, total: real)
      requires total > 0.0
      modifies this`nodes
      ensures State() == PayAll(old(State()), Shares(weights, released, total))
    {
      ghost var w := State();
      for i := 0 to |weights|
        invariant State() == PayAll(w, Shares(weights[..i], released, total))
      {
        PayNext(w, weights, i, released, total);
        CreditShare(weights[i].entity, ShareOf(released, weights[i].weight, total));
      }
      assert weights[..|weights|] == weights;
    }

    method CreditShare(target: Entity, share: real)
      modifies this`nodes
      ensures State() == Pay(old(State()), Payment(target, share))
    {
      if target in nodes {
        nodes := nodes[target := nodes[target].(account := Credited(nodes[target].account, Harvested, Finite(share)))];
      }
    }

    // -------------------------------------------------------------- reproduction

    method ReproduceAgents(draws: seq<BirthDraw>)
      modifies this
      ensures State() == ReproduceAll(old(State()), draws)
    {
      ghost var w := State();
      for i := 0 to |draws|
        invariant State() == ReproduceAll(w, draws[..i])
      {
        assert draws[..i + 1][..i] == draws[..i];
        if draws[i].entity in nodes && nodes[draws[i].entity].agent.Some? { ReproduceAgent(draws[i]); }
      }
      assert draws[..|draws|] == draws;
    }

    method ReproduceAgent(x: BirthDraw)
      requires IsAgent(State(), x.entity)
      modifies this
      ensures State() == ReproduceOne(old(State()), x)
    {
      var n := nodes[x.entity];
      var surplus, cooldown := n.agent.value.surplus, Max(n.agent.value.birthCooldown - FIXED_DT, 0.0);
      var eligible :=
        n.account.energy >= REPRODUCTION_ENERGY_THRESHOLD && n.mass >= REPRODUCTION_MASS_COST + 0.5 && cooldown <= 0.0;
      if !eligible {
        surplus := 0.0;
      } else {
        surplus := surplus + FIXED_DT;
        if surplus >= REPRODUCTION_SURPLUS_SECONDS {
          surplus, cooldown := 0.0, REPRODUCTION_COOLDOWN_SECONDS;
          if x.consents {
            var child := Child(n, x);
            n := n.(account := DebitedExact(n.account, Flow.Offspring, Finite(REPRODUCTION_ENERGY_COST)));
            n := n.(mass := n.mass - REPRODUCTION_MASS_COST);
            nodes := nodes[x.entity := Paced(n, surplus, cooldown)];
            var born := SpawnNode(child);
            return;
          }
        }
      }
      nodes := nodes[x.entity := Paced(n, surplus, cooldown)];
    }

    // -------------------------------------------------------------- collisions

    method AccumulateCollisionDamage(impacts: seq<Impact>)
      modifies this
      ensures State() == ImpactAll(RelaxStress(old(State())), impacts)
    {
      ghost var w := State();
      RelaxAll();
      for i := 0 to |impacts|
        invariant State() == ImpactAll(RelaxStress(w), impacts[..i])
      {
        assert impacts[..i + 1][..i] == impacts[..i];
        TakeImpact(impacts[i]);
      }
      assert impacts[..|impacts|] == impacts;
    }

    method RelaxAll()
      modifies this`nodes
      ensures State() == RelaxStress(old(State()))
    {
      ghost var w := State();
      var pending := nodes.Keys;
      while pending != {}
        invariant pending <= nodes.Keys && nodes.Keys == w.nodes.Keys
        invariant forall e | e in nodes :: nodes[e] == if e in pending then w.nodes[e] else RelaxNode(w.nodes[e])
      {
        var e :| e in pending;
        var stress := nodes[e].stress * STRESS_RETENTION;
        if stress < 0.0001 { stress := 0.0; }
        nodes := nodes[e := nodes[e].(stress := stress)];
        pending := pending - {e};
      }
    }

    method TakeImpact(x: Impact)
      modifies this`nodes, this`fragments
      ensures State() == ImpactOne(old(State()), x)
    {
      if x.victim !in nodes || x.impulse <= 0.0 { return; }
      var n := nodes[x.victim];
      var stress := n.stress + x.impulse;
      if stress <= n.yieldAt {
        nodes := nodes[x.victim := n.(stress := stress)];
        return;
      }
      var excess := stress - n.yieldAt;
      n := n.(structure := n.structure - excess * DAMAGE_SCALE, stress := n.yieldAt * 0.5);
      nodes := nodes[x.victim := n];
      if n.structure <= 0.0 && n.account.energy > 0.0 && CanFragment(n) { QueueBroken(x.victim, x.source); }
    }

    method QueueBroken(victim: Entity, source: Entity)
      requires victim in nodes
      modifies this`fragments
      ensures var w := old(State());
              State() == QueueFragment(w, victim, Killer(w, source), Claim(w, source, w.nodes[victim]))
    {
      var killer := if source in nodes && AgentTag in nodes[source].tags then Some(source) else None;
      var share := if killer.Some? then nodes[victim].account.energy * 0.5 else 0.0;
      QueueFragmentWithShare(victim, killer, share);
    }

    method TransferToKillers()
      modifies this
      ensures State() == ConsumeAll(old(State()), old(fragments))
    {
      ghost var w := State();
      for i := 0 to |fragments|
        invariant State() == ConsumeAll(w, w.fragments[..i]) && fragments == w.fragments
      {
        assert fragments[..i + 1][..i] == fragments[..i];
        var f := fragments[i];
        if f.killer.Some? && f.share > 0.0 && f.victim in nodes && f.killer.value in nodes
            && f.victim != f.killer.value {
          MoveEnergy(f.victim, f.killer.value, f.share, Consumed);
        }
      }
      assert w.fragments[..|w.fragments|] == w.fragments;
    }

    // -------------------------------------------------------------- coming and going

    method DespawnJointsOn(entities: seq<Entity>)
      modifies this`joints
      ensures joints == Untouched(old(joints), entities)
    {
      var pending := joints.Keys;
      var remaining: map<Entity, Joint> := map[];
      while pending != {}
        invariant pending <= joints.Keys && joints == old(joints)
        invariant remaining == map j | j in joints && j !in pending && j in Untouched(joints, entities) :: joints[j]
      {
        var j :| j in pending;
        if joints[j].owner !in entities && joints[j].target !in entities { remaining := remaining[j := joints[j]]; }
        pending := pending - {j};
      }
      joints := remaining;
    }

    /** First the joints on the entities, then the entities. */
    method DespawnPhysicalEntities(entities: seq<Entity>)
      modifies this
      ensures State() == DespawnAll(old(State()), entities)
    {
      ghost var w := State();
      DespawnJointsOn(entities);
      for i := 0 to |entities|
        invariant nodes == w.nodes - (set e | e in entities[..i])
        invariant State() == w.(nodes := nodes, joints := Untouched(w.joints, entities))
      {
        assert entities[..i + 1] == entities[..i] + [entities[i]];
        nodes := nodes - {entities[i]};
      }
      assert entities[..|entities|] == entities;
      DespawnAllIs(w, entities);
      books := DespawnAll(w, entities).books;
    }

    method SpawnNodes(ns: seq<Node>)
      modifies this
      ensures State() == SpawnAll(old(State()), ns)
    {
      ghost var w := State();
      for i := 0 to |ns|
        invariant State() == SpawnAll(w, ns[..i])
      {
        assert ns[..i + 1][..i] == ns[..i];
        var e := SpawnNode(ns[i]);
      }
      assert ns[..|ns|] == ns;
    }

    // -------------------------------------------------------------- fragmentation and death

    method ScatterDaughters(n: Node, count: nat, x: SplitDraw) returns (daughters: seq<Node>)
      requires count == 2 || count == 3
      ensures daughters == Daughters(n, count, x)
    {
      var draws := [x.first, x.second, x.third];
      daughters := [];
      for i := 0 to count
        invariant |daughters| == i && forall k | 0 <= k < i :: daughters[k] == Daughter(n, count, draws[k])
      {
        daughters := daughters + [Daughter(n, count, draws[i])];
      }
    }

    method PlanFragmentation(draws: Entity -> SplitDraw) returns (toDespawn: seq<Entity>, toSpawn: seq<Node>)
      ensures toDespawn == VictimsOf(State(), fragments, draws) && toSpawn == DaughtersOf(State(), fragments, draws)
    {
      toDespawn, toSpawn := [], [];
      for i := 0 to |fragments|
        invariant toDespawn == VictimsOf(State(), fragments[..i], draws)
        invariant toSpawn == DaughtersOf(State(), fragments[..i], draws)
      {
        assert fragments[..i + 1][..i] == fragments[..i];
        var victim := fragments[i].victim;
        if victim in nodes {
          var count := DaughterCount(nodes[victim], draws(victim).triplet);
          if count.Some? {
            var daughters := ScatterDaughters(nodes[victim], count.value, draws(victim));
            toSpawn := toSpawn + daughters;
            toDespawn := toDespawn + [victim];
          }
        }
      }
      assert fragments[..|fragments|] == fragments;
    }

    /** All victims go before any daughter comes. */
    method ReplaceVictims(toDespawn: seq<Entity>, toSpawn: seq<Node>)
      modifies this
      ensures State() == Batch(old(State()), toDespawn, toSpawn)
    {
      DespawnPhysicalEntities(toDespawn);
      books := books.(splits := books.splits + |toDespawn|);
      SpawnNodes(toSpawn);
    }

    /** Whatever is queued; a queue of divisible victims, each once, comes to one division after another. */
    method RunFragmentation(draws: Entity -> SplitDraw)
      modifies this
      ensures var w := old(State());
              State() == Batch(w, VictimsOf(w, w.fragments, draws),
                  DaughtersOf(w, w.fragments, draws)).(fragments := [])
      ensures old(Keyed(State()) && QueueOk(State())) ==> State() == Failure.RunFragmentation(old(State()), draws)
    {
      ghost var w := State();
      var toDespawn, toSpawn := PlanFragmentation(draws);
      fragments := [];
      ReplaceVictims(toDespawn, toSpawn);
      BatchIgnoresQueue(w, toDespawn, toSpawn);
      if Keyed(w) && QueueOk(w) { BatchIsSplitAll(w, w.fragments, draws); }
    }

    method Die(e: Entity)
      modifies this
      ensures State() == DieOne(old(State()), e)
    {
      if e in nodes {
        joints := map j | j in joints && joints[j].owner != e && joints[j].target != e :: joints[j];
        var n := nodes[e];
        n := n.(tags := n.tags - {AgentTag, ClampCapable});
        nodes := nodes[e := n.(agent := None, dead := true)];
      }
    }

    method RunDeaths()
      modifies this
      ensures State() == Failure.RunDeaths(old(State()))
    {
      var queued := deaths;
      deaths := [];
      ghost var w := State();
      for i := 0 to |queued|
        invariant State() == DieAll(w, queued[..i])
      {
        assert queued[..i + 1][..i] == queued[..i];
        Die(queued[i]);
      }
      assert queued[..|queued|] == queued;
    }

    // -------------------------------------------------------------- chunk streaming

    method WithHalo(desired: set<Chunk>, center: Chunk) returns (all: set<Chunk>)
      ensures all == desired + Halo(center)
    {
      all := desired;
      for dx := -1 to 2
        invariant all == desired + set c | c in Halo(center) && c.x - center.x < dx
      {
        ghost var column := all;
        for dy := -1 to 2
          invariant all == column + set c | c in Halo(center) && c.x - center.x == dx && c.y - center.y < dy
        {
          HaloIs(center, Chunk(center.x + dx, center.y + dy));
          all := all + {Chunk(center.x + dx, center.y + dy)};
        }
      }
    }

    method DesiredChunks() returns (desired: set<Chunk>)
      ensures desired == Desired(State())
    {
      desired := {};
      for e := 0 to next
        invariant desired == DesiredBelow(State(), e)
      {
        if e in nodes && nodes[e].agent.Some? { desired := WithHalo(desired, Center(nodes[e])); }
      }
    }

    method TerrainPlan(novel: seq<Chunk>, scatter: Scatter) returns (plan: seq<Node>)
      ensures plan == TerrainFor(novel, scatter)
    {
      plan := [];
      for i := 0 to |novel|
        invariant plan == TerrainFor(novel[..i], scatter)
      {
        assert novel[..i + 1][..i] == novel[..i];
        plan := plan + Terrain(novel[i], scatter);
      }
      assert novel[..|novel|] == novel;
    }

    method InactiveNodes(inactive: set<Chunk>) returns (toDespawn: seq<Entity>)
      ensures toDespawn == LeavingBelow(State(), inactive, next)
    {
      toDespawn := [];
      for e := 0 to next
        invariant toDespawn == LeavingBelow(State(), inactive, e)
      {
        if e in nodes && nodes[e].agent.None? {
          var coordinate := if nodes[e].origin.Some? then nodes[e].origin.value else Center(nodes[e]);
          if coordinate in inactive { toDespawn := toDespawn + [e]; }
        }
      }
    }

    /** What leaves the world with its chunk, noted in the books. */
    method UnloadNodes(entities: seq<Entity>)
      modifies this
      ensures State() == StreamOutAll(old(State()), entities)
    {
      ghost var w := State();
      DespawnPhysicalEntities(entities);
      StreamOutIsDespawn(w, entities);
      books := StreamOutAll(w, entities).books;
    }

    method LoadTerrain(plan: seq<Node>)
      modifies this
      ensures State() == StreamIn(old(State()), plan)
    {
      ghost var w := State();
      SpawnNodes(plan);
      books := StreamIn(w, plan).books;
    }

    method StreamChunks(scatter: Scatter)
      requires Good(State())
      modifies this
      ensures State() == Genesis.StreamChunks(old(State()), scatter)
    {
      if clock % STREAM_PERIOD != 0 { return; }
      ghost var w := State();
      var desired := DesiredChunks();
      var plan := TerrainPlan(Ordered(desired - chunks), scatter);
      var toDespawn := InactiveNodes(chunks - desired);
      LeavingAre(w, chunks - desired, next);
      LeavingRise(w, chunks - desired, next);
      StreamedIn(w, plan, Ordered(desired - chunks), scatter);
      LoadTerrain(plan);
      UnloadNodes(toDespawn);
      chunks := desired;
    }

    // -------------------------------------------------------------- the end of a tick

    method AdvanceSimClock()
      modifies this`clock
      ensures State() == AdvanceClock(old(State()))
    {
      if clock < U64_MAX { clock := clock + 1; }
    }

    method NoteActive() returns (current: set<Entity>)
      requires Keyed(State())
      modifies this`active
      ensures current == Alive(State())
      ensures active == map e | e in old(active).Keys + current ::
                          if e in current then RecordOf(nodes[e]) else old(active[e])
    {
      current := {};
      for e := 0 to next
        invariant current == set f | f in nodes && IsAgent(State(), f) && f < e
        invariant active == map f | f in old(active).Keys + current ::
                              if f in current then RecordOf(nodes[f]) else old(active[f])
      {
        if e in nodes && nodes[e].agent.Some? {
          current := current + {e};
          active := active[e := Recorded(nodes[e].agent.value.generation, nodes[e].account.ledger)];
        }
      }
    }

    /** Records of agents that are no more become outcomes. */
    method RetireGone(ghost w: World)
      requires Keyed(w) && w == State().(active := w.active)
      requires active.Keys == w.active.Keys + Alive(w) && forall e | e in active :: e < next
      requires forall e | e in active && e !in Alive(w) :: active[e] == w.active[e]
      modifies this`active, this`completed
      ensures active == map e | e in Alive(w) :: old(active[e])
      ensures completed == w.completed + NewOutcomes(w, w.next)
    {
      ghost var seen := active;
      for e := 0 to next
        invariant completed == w.completed + NewOutcomes(w, e)
        invariant active == Unretired(w, seen, e)
      {
        UnretiredNext(w, seen, e);
        if e in active && !(e in nodes && nodes[e].agent.Some?) {
          completed := completed + [Outcome(e, active[e].generation, active[e].ledger, AtMost(U32_MAX, clock))];
          active := active - {e};
        }
      }
    }

    method RecordAgentHistory()
      requires Keyed(State()) && forall e | e in active :: e < next
      modifies this
      ensures State() == RecordHistory(old(State()))
    {
      ghost var w := State();
      var current := NoteActive();
      RetireGone(w);
      assert active == RecordHistory(w).active;
      ever := ever + current;
    }

    // -------------------------------------------------------------- the fixed step

    method UpdatePositions(motion: Entity -> Offset)
      modifies this`nodes
      ensures State() == Move(old(State()), motion)
    {
      ghost var w := State();
      var pending := nodes.Keys;
      while pending != {}
        invariant pending <= nodes.Keys && nodes.Keys == w.nodes.Keys
        invariant forall e | e in nodes :: nodes[e] == if e in pending then w.nodes[e] else Moved(w.nodes[e], motion(e))
      {
        var e :| e in pending;
        nodes := nodes[e := nodes[e].(x := motion(e).dx, y := motion(e).dy)];
        pending := pending - {e};
      }
    }

    method BeforePhysics(t: Circumstances)
      modifies this
      ensures State() == PrePhysics(old(State()), t)
    {
      CleanupClampJoints();
      ApplyAgentActions(t.efforts);
      ApplyActuators(t.commands);
      ThermodynamicDrain(t.exposures);
      KineticHarvest(t.contacts);
      VolatileTrapDischarge(t.spikes);
      ReproduceAgents(t.births);
    }

    method AfterPhysics(t: Circumstances)
      requires Good(State()) && QueueOk(State()) && forall e | e in active :: e < next
      modifies this
      ensures State() == PostPhysics(old(State()), t)
    {
      ghost var w := State();
      UpdatePositions(t.motion);
      AccumulateCollisionDamage(t.impacts);
      TransferToKillers();
      CollideStep(w, t);
      ghost var hit := State();
      RunFragmentation(t.splits);
      FragmentationStep(hit, t.splits);
      ghost var split := State();
      RunDeaths();
      DeathsStep(split);
      ghost var died := State();
      StreamChunks(t.scatter);
      ClosingKeyed(died, t.scatter);
      AdvanceSimClock();
      RecordAgentHistory();
    }

    /** One fixed step of the simulation is one tick of the model. */
    method Step(t: Circumstances)
      requires WorldOk(State()) && VisitsOnce(t.exposures)
      modifies this
      ensures State() == Tick(old(State()), t)
      ensures WorldOk(State()) && HistoryOk(State()) && Conserves(old(State()), State())
    {
      ghost var w := State();
      BeforePhysics(t);
      PrePhysicsStep(w, t);
      assert forall e | e in w.active :: e in Alive(w);
      AfterPhysics(t);
      TickKeeps(w, t);
    }
  }

  /** The records that are left once all entities below `n` have been looked at. */
  function Unretired(w: World, seen: map<Entity, Recorded>, n: nat): map<Entity, Recorded> {
    map f | f in seen && (IsAgent(w, f) || n <= f) :: seen[f]
  }

  lemma UnretiredNext(w: World, seen: map<Entity, Recorded>, n: nat)
    ensures Unretired(w, seen, n + 1) ==
            if n in seen && !IsAgent(w, n) then Unretired(w, seen, n) - {n} else Unretired(w, seen, n)
  {
  }

  lemma ClosingKeyed(w: World, scatter: Scatter)
    requires Good(w)
    ensures var z := Genesis.StreamChunks(w, scatter);
            Keyed(z) && Keyed(AdvanceClock(z)) && z.next >= w.next && z.active == w.active
  {
    if w.step % STREAM_PERIOD == 0 { StreamStep(w, scatter); }
  }
}
