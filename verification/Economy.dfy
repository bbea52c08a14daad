/**
 The systems that only move energy, damage structure and flag nodes: locomotion cost,
 thermodynamic drain, kinetic harvest, volatile traps, collision damage, consumption and
 death. Each pass is a fold of one step per item, in the order the pass meets the items.
 */
module Economy {
  import opened Wrappers
  import opened Energy
  import opened World

  const BASE_DRAIN := 0.6
  const HARVEST_MIN_REL_SPEED := 1.5
  const HARVEST_RATE := 1.5
  const VOLATILE_TRAP_DRAIN_FRACTION := 0.5
  const STRESS_RETENTION := 0.92
  const DAMAGE_SCALE := 0.25

  function DistanceSquared(a: Node, b: Node): real {
    (a.x - b.x) * (a.x - b.x) + (a.y - b.y) * (a.y - b.y)
  }

  // ---------------------------------------------------------------- locomotion

  /** A queued action's effort: the length of its force plus the size of its torque. */
  datatype Effort = Effort(entity: Entity, size: real)

  function SpendEffort(w: World, x: Effort): World {
    if x.entity !in w.nodes then w
    else
      var n := w.nodes[x.entity];
      SetNode(w, x.entity, n.(account := DebitedExact(n.account, Actuation, Finite(x.size * 0.1))))
  }

  function SpendEfforts(w: World, xs: seq<Effort>): World {
    if xs == [] then w else SpendEffort(SpendEfforts(w, xs[..|xs| - 1]), xs[|xs| - 1])
  }

  // ---------------------------------------------------------------- drain

  /** The thermal field where a node is, and whether a shelter is near it. */
  datatype Exposure = Exposure(entity: Entity, thermal: real, sheltered: bool)

  function DrainRate(n: Node, x: Exposure): real {
    BASE_DRAIN * (1.0 + Max(x.thermal, 0.0) * if x.sheltered then 0.25 else 1.0) * (0.4 + 0.6 * n.conductivity)
  }

  function DrainNode(n: Node, x: Exposure): Node {
    var load := Max(x.thermal, 0.0);
    var vented :=
      if ThermalVent in n.tags then
        n.(account := Credited(n.account, Vented, Finite(2.0 * load * FIXED_DT)),
           structure := n.structure - 0.3 * load * FIXED_DT)
      else n;
    vented.(account := DrainedBy(vented.account, Finite(DrainRate(n, x) * FIXED_DT)))
  }

  function QueueFragment(w: World, e: Entity, killer: Option<Entity>, share: real): World {
    if Queued(w.fragments, e) then w else w.(fragments := w.fragments + [FragmentEntry(e, killer, share)])
  }

  /** Its structure is gone while it still has energy, and it is large enough to divide. */
  predicate Fails(n: Node) {
    n.structure <= 0.0 && n.account.energy > 0.0 && CanFragment(n)
  }

  /** The verdict on a drained node: it falls apart, it dies, or it goes on. */
  function Flag(w: World, e: Entity, n: Node): World {
    if Fails(n) then QueueFragment(w, e, None, 0.0)
    else if n.account.energy <= 0.0 && e !in w.deaths then w.(deaths := w.deaths + [e])
    else w
  }

  function DrainOne(w: World, x: Exposure): World {
    if x.entity !in w.nodes || w.nodes[x.entity].dead then w
    else
      var n := DrainNode(w.nodes[x.entity], x);
      Flag(SetNode(w, x.entity, n), x.entity, n)
  }

  function DrainAll(w: World, xs: seq<Exposure>): World {
    if xs == [] then w else DrainOne(DrainAll(w, xs[..|xs| - 1]), xs[|xs| - 1])
  }

  /** The query visits each node at most once. */
  ghost predicate VisitsOnce(xs: seq<Exposure>) {
    forall i, j | 0 <= i < j < |xs| :: xs[i].entity != xs[j].entity
  }

  // ---------------------------------------------------------------- harvest

  /** An agent and a candidate its query returned, with their relative speed. */
  datatype Contact = Contact(agent: Entity, other: Entity, speed: real)

  function HarvestRate(x: Contact): real {
    HARVEST_RATE * (x.speed - HARVEST_MIN_REL_SPEED + 1.0) * FIXED_DT
  }

  predicate Harvestable(w: World, x: Contact) {
    && x.agent in w.nodes && AgentTag in w.nodes[x.agent].tags
    && x.other in w.nodes && x.other != x.agent && EnergyConvertible in w.nodes[x.other].tags
    && DistanceSquared(w.nodes[x.other], w.nodes[x.agent]) <= 16.0
    && x.speed >= HARVEST_MIN_REL_SPEED
  }

  /** Energy leaves one account for another; nothing is made or lost on the way. */
  function Transfer(w: World, source: Entity, sink: Entity, amount: real, into: Flow): World
    requires source in w.nodes && sink in w.nodes && source != sink
  {
    var n, m := w.nodes[source], w.nodes[sink];
    var moved := AvailableAmount(n.account, Transferred, Finite(amount));
    SetNode(SetNode(w, source, n.(account := DebitedAvailable(n.account, Transferred, Finite(amount)))),
            sink, m.(account := Credited(m.account, into, Finite(moved))))
  }

  function HarvestOne(w: World, x: Contact): World {
    if !Harvestable(w, x) then w
    else
      var amount := Min(HarvestRate(x), Max(w.nodes[x.other].account.energy, 0.0));
      if amount <= 0.0 then w else Transfer(w, x.other, x.agent, amount, Harvested)
  }

  function HarvestAll(w: World, xs: seq<Contact>): World {
    if xs == [] then w else HarvestOne(HarvestAll(w, xs[..|xs| - 1]), xs[|xs| - 1])
  }

  // ---------------------------------------------------------------- traps

  datatype Nearby = Nearby(entity: Entity, distance: real)

  datatype Weight = Weight(entity: Entity, weight: real)

  /** A trap in a spiking field, and what its query returned. */
  datatype Spike = Spike(trap: Entity, near: seq<Nearby>)

  function Weights(w: World, trap: Entity, near: seq<Nearby>): seq<Weight> {
    if near == [] then []
    else
      var x := near[|near| - 1];
      Weights(w, trap, near[..|near| - 1]) +
      if x.entity != trap && x.entity in w.nodes && AgentTag in w.nodes[x.entity].tags
      then [Weight(x.entity, 1.0 / Max(x.distance, 0.1))] else []
  }

  function TotalWeight(weights: seq<Weight>): real {
    if weights == [] then 0.0 else TotalWeight(weights[..|weights| - 1]) + weights[|weights| - 1].weight
  }

  datatype Payment = Payment(entity: Entity, amount: real)

  function ShareOf(released: real, weight: real, total: real): real
    requires total > 0.0
  {
    released * (weight / total)
  }

  /** Everyone's share of a release, in proportion to its weight. */
  function Shares(weights: seq<Weight>, released: real, total: real): seq<Payment>
    requires total > 0.0
  {
    if weights == [] then []
    else
      var last := weights[|weights| - 1];
      Shares(weights[..|weights| - 1], released, total) + [Payment(last.entity, ShareOf(released, last.weight, total))]
  }

  lemma SharesNext(weights: seq<Weight>, i: nat, released: real, total: real)
    requires i < |weights| && total > 0.0
    ensures Shares(weights[..i + 1], released, total)
            == Shares(weights[..i], released, total) +
                [Payment(weights[i].entity, ShareOf(released, weights[i].weight, total))]
  {
    var upTo := weights[..i + 1];
    assert upTo[..|upTo| - 1] == weights[..i] && upTo[|upTo| - 1] == weights[i];
  }

  function Pay(w: World, x: Payment): World {
    if x.entity !in w.nodes then w
    else SetNode(w, x.entity,
        w.nodes[x.entity].(account := Credited(w.nodes[x.entity].account, Harvested, Finite(x.amount))))
  }

  function PayAll(w: World, payments: seq<Payment>): World {
    if payments == [] then w else Pay(PayAll(w, payments[..|payments| - 1]), payments[|payments| - 1])
  }

  lemma PayNext(w: World, weights: seq<Weight>, i: nat, released: real, total: real)
    requires i < |weights| && total > 0.0
    ensures PayAll(w, Shares(weights[..i + 1], released, total))
            == Pay(PayAll(w, Shares(weights[..i], released, total)),
                   Payment(weights[i].entity, ShareOf(released, weights[i].weight, total)))
  {
    SharesNext(weights, i, released, total);
    var paid := Shares(weights[..i], released, total);
    var payment := Payment(weights[i].entity, ShareOf(released, weights[i].weight, total));
    assert (paid + [payment])[..|paid|] == paid;
  }

  lemma {:induction false} WeightsPresent(w: World, trap: Entity, near: seq<Nearby>)
    ensures forall x | x in Weights(w, trap, near) :: x.entity in w.nodes && x.entity != trap && x.weight > 0.0
  {
    if near != [] { WeightsPresent(w, trap, near[..|near| - 1]); }
  }

  function DischargeOne(w: World, x: Spike): World {
    if x.trap !in w.nodes || VolatileTrap !in w.nodes[x.trap].tags then w
    else
      var weights := Weights(w, x.trap, x.near);
      var total := TotalWeight(weights);
      var n := w.nodes[x.trap];
      var release := Max(n.account.energy, 0.0) * VOLATILE_TRAP_DRAIN_FRACTION;
      if total <= 0.0 || release <= 0.0 then w
      else
        var paid := SetNode(w, x.trap, n.(account := DebitedAvailable(n.account, Transferred, Finite(release))));
        PayAll(paid, Shares(weights, AvailableAmount(n.account, Transferred, Finite(release)), total))
  }

  function DischargeAll(w: World, xs: seq<Spike>): World {
    if xs == [] then w else DischargeOne(DischargeAll(w, xs[..|xs| - 1]), xs[|xs| - 1])
  }

  // ---------------------------------------------------------------- collision damage

  datatype Impact = Impact(victim: Entity, source: Entity, impulse: real)

  function RelaxNode(n: Node): Node {
    var stress := n.stress * STRESS_RETENTION;
    n.(stress := if stress < 0.0001 then 0.0 else stress)
  }

  function RelaxStress(w: World): World {
    w.(nodes := map e | e in w.nodes :: RelaxNode(w.nodes[e]))
  }

  function Killer(w: World, source: Entity): Option<Entity> {
    if source in w.nodes && AgentTag in w.nodes[source].tags then Some(source) else None
  }

  /** Half of the victim's energy goes to an agent that broke it. */
  function Claim(w: World, source: Entity, n: Node): real {
    if Killer(w, source).Some? then n.account.energy * 0.5 else 0.0
  }

  predicate Yields(n: Node, impulse: real) {
    n.stress + impulse > n.yieldAt
  }

  function ImpactNode(n: Node, impulse: real): Node {
    if Yields(n, impulse) then
      n.(structure := n.structure - (n.stress + impulse - n.yieldAt) * DAMAGE_SCALE, stress := n.yieldAt * 0.5)
    else n.(stress := n.stress + impulse)
  }

  /** A blow that breaks the victim queues it; an agent that struck it has half its energy coming. */
  function ImpactOne(w: World, x: Impact): World {
    if x.victim !in w.nodes || x.impulse <= 0.0 then w
    else
      var hit := ImpactNode(w.nodes[x.victim], x.impulse);
      var z := SetNode(w, x.victim, hit);
      if Yields(w.nodes[x.victim], x.impulse) && Fails(hit) then
        QueueFragment(z, x.victim, Killer(w, x.source), Claim(w, x.source, hit))
      else z
  }

  function ImpactAll(w: World, xs: seq<Impact>): World {
    if xs == [] then w else ImpactOne(ImpactAll(w, xs[..|xs| - 1]), xs[|xs| - 1])
  }

  // ---------------------------------------------------------------- consumption

  function ConsumeOne(w: World, x: FragmentEntry): World {
    if x.killer.None? || x.share <= 0.0 then w
    else if x.victim !in w.nodes || x.killer.value !in w.nodes || x.victim == x.killer.value then w
    else Transfer(w, x.victim, x.killer.value, x.share, Consumed)
  }

  function ConsumeAll(w: World, xs: seq<FragmentEntry>): World {
    if xs == [] then w else ConsumeOne(ConsumeAll(w, xs[..|xs| - 1]), xs[|xs| - 1])
  }

  // ---------------------------------------------------------------- what they keep

  /** `amount` more is in reserves than has left others; everything else about the world stands. */
  ghost predicate Steady(w: World, z: World, amount: real) {
    Shifts(w, z, amount) && SameShape(w, z) && BooksTrue(w, z)
  }

  lemma SteadyCompose(w: World, x: World, z: World, a: real, b: real)
    requires Steady(w, x, a) && Steady(x, z, b)
    ensures Steady(w, z, a + b)
    ensures Gentle(w, x) && Gentle(x, z) ==> Gentle(w, z)
  {
  }

  lemma PostSteady(w: World, e: Entity, flow: Flow, amount: real, n: Node)
    requires Keyed(w) && e in w.nodes
    requires SameMake(w.nodes[e], n) && n.account == Posted(w.nodes[e].account, flow, amount)
    requires !flow.Fabrication? && !flow.Offspring?
    ensures Steady(w, SetNode(w, e, n),
                   if flow.Harvested? || flow.Consumed? then amount else if flow.Transferred? then -amount else 0.0)
    ensures Keyed(SetNode(w, e, n))
    ensures (w.nodes[e].account.energy >= 0.0 ==> n.account.energy >= 0.0) ==> Gentle(w, SetNode(w, e, n))
  {
    PostShifts(w, e, flow, amount, n);
    SetShape(w, e, n);
  }

  lemma QuietSteady(w: World, e: Entity, n: Node)
    requires Keyed(w) && e in w.nodes && SameMake(w.nodes[e], n) && n.account == w.nodes[e].account
    ensures Steady(w, SetNode(w, e, n), 0.0) && Gentle(w, SetNode(w, e, n))
  {
    SetShifts(w, e, n);
    SetShape(w, e, n);
  }

  lemma EffortSteady(w: World, x: Effort)
    requires Keyed(w)
    ensures Steady(w, SpendEffort(w, x), 0.0) && Gentle(w, SpendEffort(w, x))
    ensures SpendEffort(w, x).fragments == w.fragments
  {
    if x.entity in w.nodes {
      var n := w.nodes[x.entity];
      var amount := Finite(x.size * 0.1);
      if Affordable(n.account, Actuation, amount) {
        PostSteady(w, x.entity, Actuation, ValidAmount(amount),
            n.(account := DebitedExact(n.account, Actuation, amount)));
      } else {
        QuietSteady(w, x.entity, n);
      }
    }
  }

  lemma {:induction false} EffortsSteady(w: World, xs: seq<Effort>)
    requires Keyed(w)
    ensures Steady(w, SpendEfforts(w, xs), 0.0) && Gentle(w, SpendEfforts(w, xs))
    ensures SpendEfforts(w, xs).fragments == w.fragments
  {
    if xs != [] {
      var x := SpendEfforts(w, xs[..|xs| - 1]);
      EffortsSteady(w, xs[..|xs| - 1]);
      ShapeKeepsKeys(w, x);
      EffortSteady(x, xs[|xs| - 1]);
      SteadyCompose(w, x, SpendEfforts(w, xs), 0.0, 0.0);
    }
  }

  lemma TransferSteady(w: World, source: Entity, sink: Entity, amount: real, into: Flow)
    requires Keyed(w) && source in w.nodes && sink in w.nodes && source != sink
    requires into.Harvested? || into.Consumed?
    ensures var z := Transfer(w, source, sink, amount, into);
            Steady(w, z, 0.0) && Gentle(w, z) && z.fragments == w.fragments
  {
    var n, m := w.nodes[source], w.nodes[sink];
    var moved := AvailableAmount(n.account, Transferred, Finite(amount));
    var debited := n.(account := DebitedAvailable(n.account, Transferred, Finite(amount)));
    PostSteady(w, source, Transferred, moved, debited);
    var x := SetNode(w, source, debited);
    PostSteady(x, sink, into, moved, m.(account := Credited(m.account, into, Finite(moved))));
    SteadyCompose(w, x, Transfer(w, source, sink, amount, into), -moved, moved);
  }

  lemma SteadyRefl(w: World)
    ensures Steady(w, w, 0.0) && Gentle(w, w)
  {
  }

  lemma {:induction false} HarvestSteady(w: World, xs: seq<Contact>)
    requires Keyed(w)
    ensures Steady(w, HarvestAll(w, xs), 0.0) && Gentle(w, HarvestAll(w, xs))
    ensures HarvestAll(w, xs).fragments == w.fragments
  {
    if xs != [] {
      var x := HarvestAll(w, xs[..|xs| - 1]);
      var c := xs[|xs| - 1];
      HarvestSteady(w, xs[..|xs| - 1]);
      ShapeKeepsKeys(w, x);
      if Harvestable(x, c) {
        var amount := Min(HarvestRate(c), Max(x.nodes[c.other].account.energy, 0.0));
        TransferSteady(x, c.other, c.agent, amount, Harvested);
        SteadyCompose(w, x, HarvestOne(x, c), 0.0, 0.0);
      }
    }
  }

  lemma {:induction false} ConsumeSteady(w: World, xs: seq<FragmentEntry>)
    requires Keyed(w)
    ensures Steady(w, ConsumeAll(w, xs), 0.0) && Gentle(w, ConsumeAll(w, xs))
    ensures ConsumeAll(w, xs).fragments == w.fragments
  {
    if xs != [] {
      var x := ConsumeAll(w, xs[..|xs| - 1]);
      var f := xs[|xs| - 1];
      ConsumeSteady(w, xs[..|xs| - 1]);
      ShapeKeepsKeys(w, x);
      if f.killer.Some? && f.share > 0.0 && f.victim in x.nodes && f.killer.value in x.nodes
          && f.victim != f.killer.value {
        TransferSteady(x, f.victim, f.killer.value, f.share, Consumed);
        SteadyCompose(w, x, ConsumeOne(x, f), 0.0, 0.0);
      }
    }
  }

  // ---------------------------------------------------------------- traps pay out exactly

  function TotalPaid(payments: seq<Payment>): real {
    if payments == [] then 0.0
    else TotalPaid(payments[..|payments| - 1]) + payments[|payments| - 1].amount
  }

  /** The shares of a release add up to the release, whatever the weights. */
  lemma {:induction false} PaidInFull(weights: seq<Weight>, released: real, total: real)
    requires total > 0.0
    ensures TotalPaid(Shares(weights, released, total)) == released * (TotalWeight(weights) / total)
    ensures total == TotalWeight(weights) ==> TotalPaid(Shares(weights, released, total)) == released
  {
    if weights != [] {
      var front, last := weights[..|weights| - 1], weights[|weights| - 1].weight;
      PaidInFull(front, released, total);
      var shares := Shares(weights, released, total);
      assert shares[..|shares| - 1] == Shares(front, released, total);
      SplitProportion(released, TotalWeight(front), last, total);
    }
    WholeProportion(released, total);
  }

  lemma SplitProportion(released: real, a: real, b: real, total: real)
    requires total > 0.0
    ensures released * ((a + b) / total) == released * (a / total) + released * (b / total)
  {
    assert (a + b) / total == a / total + b / total;
  }

  lemma WholeProportion(released: real, total: real)
    requires total > 0.0
    ensures released * (total / total) == released
    ensures released * (0.0 / total) == 0.0
  {
    assert total / total == 1.0 && 0.0 / total == 0.0;
  }

  ghost predicate Payable(w: World, payments: seq<Payment>) {
    forall i | 0 <= i < |payments| :: payments[i].entity in w.nodes && payments[i].amount >= 0.0
  }

  lemma {:induction false} SharesReach(w: World, weights: seq<Weight>, released: real, total: real)
    requires released >= 0.0 && total > 0.0
    requires forall x | x in weights :: x.entity in w.nodes && x.weight > 0.0
    ensures Payable(w, Shares(weights, released, total))
  {
    if weights != [] {
      SharesReach(w, weights[..|weights| - 1], released, total);
      assert weights[|weights| - 1] in weights;
      assert weights[|weights| - 1].weight / total >= 0.0;
    }
  }

  lemma PayOneSteady(w: World, p: Payment)
    requires Keyed(w) && p.entity in w.nodes && p.amount >= 0.0
    ensures Steady(w, Pay(w, p), p.amount) && Gentle(w, Pay(w, p)) && Pay(w, p).fragments == w.fragments
  {
    var n := w.nodes[p.entity];
    PostSteady(w, p.entity, Harvested, p.amount, n.(account := Credited(n.account, Harvested, Finite(p.amount))));
  }

  lemma PayNextSteady(w: World, x: World, before: real, p: Payment)
    requires Keyed(w) && Steady(w, x, before) && Gentle(w, x) && x.fragments == w.fragments
    requires p.entity in x.nodes && p.amount >= 0.0
    ensures Steady(w, Pay(x, p), before + p.amount) && Gentle(w, Pay(x, p)) && Pay(x, p).fragments == w.fragments
  {
    ShapeKeepsKeys(w, x);
    PayOneSteady(x, p);
    SteadyCompose(w, x, Pay(x, p), before, p.amount);
  }

  lemma {:induction false} PaySteady(w: World, payments: seq<Payment>) returns (paid: real)
    requires Keyed(w) && Payable(w, payments)
    ensures paid == TotalPaid(payments)
    ensures var z := PayAll(w, payments);
            Steady(w, z, paid) && Gentle(w, z) && z.fragments == w.fragments
  {
    if payments == [] {
      paid := 0.0;
      SteadyRefl(w);
      return;
    }
    var front, last := payments[..|payments| - 1], payments[|payments| - 1];
    var x := PayAll(w, front);
    var before := PaySteady(w, front);
    paid := before + last.amount;
    PayNextSteady(w, x, before, last);
  }

  lemma ReleaseSteady(w: World, trap: Entity, release: real)
    requires Keyed(w) && trap in w.nodes
    ensures var n := w.nodes[trap];
            var z := SetNode(w, trap, n.(account := DebitedAvailable(n.account, Transferred, Finite(release))));
            && Steady(w, z, -AvailableAmount(n.account, Transferred, Finite(release)))
            && Gentle(w, z) && Keyed(z) && z.fragments == w.fragments
  {
    var n := w.nodes[trap];
    var released := AvailableAmount(n.account, Transferred, Finite(release));
    PostSteady(w, trap, Transferred, released,
        n.(account := DebitedAvailable(n.account, Transferred, Finite(release))));
  }

  lemma DischargeSteady(w: World, x: Spike)
    requires Keyed(w)
    ensures Steady(w, DischargeOne(w, x), 0.0) && Gentle(w, DischargeOne(w, x))
    ensures DischargeOne(w, x).fragments == w.fragments
  {
    WeightsPresent(w, x.trap, x.near);
    var weights := Weights(w, x.trap, x.near);
    SteadyRefl(w);
    if x.trap in w.nodes && VolatileTrap in w.nodes[x.trap].tags && TotalWeight(weights) > 0.0 {
      var n := w.nodes[x.trap];
      var release := Max(n.account.energy, 0.0) * VOLATILE_TRAP_DRAIN_FRACTION;
      if release > 0.0 {
        var released := AvailableAmount(n.account, Transferred, Finite(release));
        var paid := SetNode(w, x.trap, n.(account := DebitedAvailable(n.account, Transferred, Finite(release))));
        ReleaseSteady(w, x.trap, release);
        var payments := Shares(weights, released, TotalWeight(weights));
        SharesReach(paid, weights, released, TotalWeight(weights));
        var total := PaySteady(paid, payments);
        PaidInFull(weights, released, TotalWeight(weights));
        SteadyCompose(w, paid, DischargeOne(w, x), -released, released);
      }
    }
  }

  lemma {:induction false} DischargesSteady(w: World, xs: seq<Spike>)
    requires Keyed(w)
    ensures Steady(w, DischargeAll(w, xs), 0.0) && Gentle(w, DischargeAll(w, xs))
    ensures DischargeAll(w, xs).fragments == w.fragments
  {
    if xs != [] {
      var x := DischargeAll(w, xs[..|xs| - 1]);
      DischargesSteady(w, xs[..|xs| - 1]);
      ShapeKeepsKeys(w, x);
      DischargeSteady(x, xs[|xs| - 1]);
      SteadyCompose(w, x, DischargeAll(w, xs), 0.0, 0.0);
    }
  }

  // ---------------------------------------------------------------- drain and damage

  lemma DrainNodeSteady(w: World, e: Entity, x: Exposure)
    requires Keyed(w) && e in w.nodes
    ensures SameMake(w.nodes[e], DrainNode(w.nodes[e], x))
    ensures Steady(w, SetNode(w, e, DrainNode(w.nodes[e], x)), 0.0)
  {
    var n := w.nodes[e];
    var m := DrainNode(n, x);
    assert Own(m) == Own(n) && Transit(m) == Transit(n);
    SetShifts(w, e, m);
    SetShape(w, e, m);
  }

  predicate Visits(xs: seq<Exposure>, e: Entity) {
    exists k :: 0 <= k < |xs| && xs[k].entity == e
  }

  ghost predicate QueuedFrom(w: World, xs: seq<Exposure>) {
    forall i | 0 <= i < |w.fragments| :: Visits(xs, w.fragments[i].victim)
  }

  lemma QueuedFromMore(x: World, z: World, xs: seq<Exposure>, last: Exposure)
    requires QueuedFrom(x, xs)
    requires x.fragments <= z.fragments <= x.fragments + [FragmentEntry(last.entity, None, 0.0)]
    ensures QueuedFrom(z, xs + [last])
  {
    forall i | 0 <= i < |z.fragments|
      ensures Visits(xs + [last], z.fragments[i].victim)
    {
      if i < |x.fragments| {
        var k :| 0 <= k < |xs| && xs[k].entity == x.fragments[i].victim;
        assert (xs + [last])[k].entity == z.fragments[i].victim;
      } else {
        assert (xs + [last])[|xs|].entity == z.fragments[i].victim;
      }
    }
  }

  /** A queued victim passes the drain pass untouched: it is visited once, before it is queued. */
  lemma {:induction false} DrainKeeps(w: World, xs: seq<Exposure>)
    requires Keyed(w) && VisitsOnce(xs) && w.fragments == []
    ensures Steady(w, DrainAll(w, xs), 0.0) && QueueOk(DrainAll(w, xs)) && QueuedFrom(DrainAll(w, xs), xs)
  {
    if xs == [] {
      SteadyRefl(w);
    } else {
      var front, last := xs[..|xs| - 1], xs[|xs| - 1];
      var x := DrainAll(w, front);
      DrainKeeps(w, front);
      ShapeKeepsKeys(w, x);
      if last.entity in x.nodes && !x.nodes[last.entity].dead {
        DrainStep(x, last);
        SteadyCompose(w, x, DrainOne(x, last), 0.0, 0.0);
      }
      QueuedFromMore(x, DrainOne(x, last), front, last);
      assert front + [last] == xs;
    }
  }

  lemma FlagKeeps(w: World, z: World, e: Entity)
    requires Steady(w, z, 0.0) && QueueOk(z) && e in z.nodes
    ensures Steady(w, Flag(z, e, z.nodes[e]), 0.0) && QueueOk(Flag(z, e, z.nodes[e]))
    ensures z.fragments <= Flag(z, e, z.nodes[e]).fragments <= z.fragments + [FragmentEntry(e, None, 0.0)]
  {
    var n := z.nodes[e];
    if Fails(n) {
      QueueSteady(w, z, e, None, 0.0);
      QueueKeeps(z, e, None, 0.0);
    }
  }

  lemma DrainStep(x: World, last: Exposure)
    requires Keyed(x) && QueueOk(x) && last.entity in x.nodes && !x.nodes[last.entity].dead
    requires forall i | 0 <= i < |x.fragments| :: x.fragments[i].victim != last.entity
    ensures var z := DrainOne(x, last);
            && Steady(x, z, 0.0) && QueueOk(z)
            && x.fragments <= z.fragments <= x.fragments + [FragmentEntry(last.entity, None, 0.0)]
  {
    DrainNodeSteady(x, last.entity, last);
    var y := SetNode(x, last.entity, DrainNode(x.nodes[last.entity], last));
    assert QueueOk(y);
    FlagKeeps(x, y, last.entity);
  }

  lemma RelaxSteady(w: World)
    requires Keyed(w)
    ensures Steady(w, RelaxStress(w), 0.0) && Gentle(w, RelaxStress(w)) && RelaxStress(w).fragments == w.fragments
  {
    SumAgree(w.nodes, RelaxStress(w).nodes, w.next);
  }

  lemma QueueSteady(w: World, z: World, e: Entity, killer: Option<Entity>, share: real)
    requires Steady(w, z, 0.0)
    ensures Steady(w, QueueFragment(z, e, killer, share), 0.0)
  {
  }

  lemma QueueKeeps(z: World, e: Entity, killer: Option<Entity>, share: real)
    requires QueueOk(z) && Divisible(z, e)
    ensures QueueOk(QueueFragment(z, e, killer, share))
  {
  }

  lemma HitKeeps(w: World, e: Entity, n: Node)
    requires Keyed(w) && QueueOk(w) && e in w.nodes && SameMake(w.nodes[e], n) && n.account == w.nodes[e].account
    ensures Steady(w, SetNode(w, e, n), 0.0) && QueueOk(SetNode(w, e, n))
  {
    QuietSteady(w, e, n);
    ShapeKeepsQueue(w, SetNode(w, e, n));
  }

  lemma ImpactNodeMake(n: Node, impulse: real)
    ensures SameMake(n, ImpactNode(n, impulse)) && ImpactNode(n, impulse).account == n.account
  {
  }

  lemma BlowKeeps(w: World, x: Impact)
    requires Keyed(w) && QueueOk(w) && x.victim in w.nodes
    ensures var z := SetNode(w, x.victim, ImpactNode(w.nodes[x.victim], x.impulse));
            Steady(w, z, 0.0) && QueueOk(z)
  {
    ImpactNodeMake(w.nodes[x.victim], x.impulse);
    HitKeeps(w, x.victim, ImpactNode(w.nodes[x.victim], x.impulse));
  }

  lemma BreakKeeps(w: World, z: World, e: Entity, killer: Option<Entity>, share: real)
    requires Steady(w, z, 0.0) && QueueOk(z) && e in z.nodes && Fails(z.nodes[e])
    ensures Steady(w, QueueFragment(z, e, killer, share), 0.0) && QueueOk(QueueFragment(z, e, killer, share))
  {
    QueueSteady(w, z, e, killer, share);
    QueueKeeps(z, e, killer, share);
  }

  lemma ImpactKeeps(w: World, x: Impact)
    requires Keyed(w) && QueueOk(w)
    ensures Steady(w, ImpactOne(w, x), 0.0) && QueueOk(ImpactOne(w, x))
  {
    if x.victim !in w.nodes || x.impulse <= 0.0 {
      SteadyRefl(w);
    } else if Yields(w.nodes[x.victim], x.impulse) && Fails(ImpactNode(w.nodes[x.victim], x.impulse)) {
      var hit := ImpactNode(w.nodes[x.victim], x.impulse);
      BlowKeeps(w, x);
      BreakKeeps(w, SetNode(w, x.victim, hit), x.victim, Killer(w, x.source), Claim(w, x.source, hit));
    } else {
      BlowKeeps(w, x);
    }
  }

  lemma {:induction false} ImpactsKeep(w: World, xs: seq<Impact>)
    requires Keyed(w) && QueueOk(w)
    ensures Steady(w, ImpactAll(w, xs), 0.0) && QueueOk(ImpactAll(w, xs))
  {
    if xs == [] {
      SteadyRefl(w);
    } else {
      var x := ImpactAll(w, xs[..|xs| - 1]);
      ImpactsKeep(w, xs[..|xs| - 1]);
      ShapeKeepsKeys(w, x);
      ImpactKeeps(x, xs[|xs| - 1]);
      SteadyCompose(w, x, ImpactAll(w, xs), 0.0, 0.0);
    }
  }

  // ---------------------------------------------------------------- who is queued

  lemma QueuedStays(a: seq<FragmentEntry>, b: seq<FragmentEntry>, e: Entity)
    requires a <= b && Queued(a, e)
    ensures Queued(b, e)
  {
    var i :| 0 <= i < |a| && a[i].victim == e;
    assert b[i].victim == e;
  }

  lemma QueueingQueues(w: World, e: Entity, killer: Option<Entity>, share: real)
    ensures w.fragments <= QueueFragment(w, e, killer, share).fragments
    ensures Queued(QueueFragment(w, e, killer, share).fragments, e)
  {
    var queue := QueueFragment(w, e, killer, share).fragments;
    if !Queued(w.fragments, e) { assert queue[|queue| - 1].victim == e; }
  }

  /** A node that fails when the drain pass comes to it. */
  predicate Withers(w: World, x: Exposure) {
    x.entity in w.nodes && !w.nodes[x.entity].dead && Fails(DrainNode(w.nodes[x.entity], x))
  }

  lemma DrainOneQueues(w: World, x: Exposure)
    ensures w.fragments <= DrainOne(w, x).fragments
    ensures Withers(w, x) ==> Queued(DrainOne(w, x).fragments, x.entity)
    ensures forall e | e in w.nodes && e != x.entity ::
              e in DrainOne(w, x).nodes && DrainOne(w, x).nodes[e] == w.nodes[e]
  {
    QueueingQueues(w, x.entity, None, 0.0);
  }

  /** Every node that fails in the drain pass is in the queue at its end. */
  lemma {:induction false} DrainQueues(w: World, xs: seq<Exposure>, e: Entity)
    requires VisitsOnce(xs)
    ensures (exists i :: 0 <= i < |xs| && xs[i].entity == e && Withers(w, xs[i])) ==>
              Queued(DrainAll(w, xs).fragments, e)
    ensures e in w.nodes && (forall i | 0 <= i < |xs| :: xs[i].entity != e) ==>
              e in DrainAll(w, xs).nodes && DrainAll(w, xs).nodes[e] == w.nodes[e]
  {
    if xs != [] {
      var front, last := xs[..|xs| - 1], xs[|xs| - 1];
      var x := DrainAll(w, front);
      DrainQueues(w, front, e);
      DrainOneQueues(x, last);
      if i :| 0 <= i < |xs| && xs[i].entity == e && Withers(w, xs[i]) {
        if i < |front| {
          assert front[i] == xs[i];
          QueuedStays(x.fragments, DrainAll(w, xs).fragments, e);
        }
      }
    }
  }

  /** A node that breaks under the blow. */
  predicate Breaks(w: World, x: Impact) {
    && x.victim in w.nodes && x.impulse > 0.0
    && Yields(w.nodes[x.victim], x.impulse) && Fails(ImpactNode(w.nodes[x.victim], x.impulse))
  }

  lemma ImpactOneQueues(w: World, x: Impact)
    ensures w.fragments <= ImpactOne(w, x).fragments
    ensures Breaks(w, x) ==> Queued(ImpactOne(w, x).fragments, x.victim)
  {
    if Breaks(w, x) {
      var hit := ImpactNode(w.nodes[x.victim], x.impulse);
      QueueingQueues(SetNode(w, x.victim, hit), x.victim, Killer(w, x.source), Claim(w, x.source, hit));
    }
  }

  /** The blows only add to the queue, and every node that breaks is in it at their end. */
  lemma {:induction false} ImpactQueues(w: World, xs: seq<Impact>)
    ensures w.fragments <= ImpactAll(w, xs).fragments
    ensures forall i | 0 <= i < |xs| && Breaks(ImpactAll(w, xs[..i]), xs[i]) ::
              Queued(ImpactAll(w, xs).fragments, xs[i].victim)
  {
    if xs != [] {
      var front := xs[..|xs| - 1];
      ImpactQueues(w, front);
      ImpactOneQueues(ImpactAll(w, front), xs[|xs| - 1]);
      forall i | 0 <= i < |xs| && Breaks(ImpactAll(w, xs[..i]), xs[i])
        ensures Queued(ImpactAll(w, xs).fragments, xs[i].victim)
      {
        if i < |front| {
          assert front[..i] == xs[..i];
          QueuedStays(ImpactAll(w, front).fragments, ImpactAll(w, xs).fragments, xs[i].victim);
        }
      }
    }
  }
}
