/**
 What each system does to whom, in numbers: the accounts it moves energy between, the nodes it
 changes, queues or makes, and everything it leaves alone.
 */
module Effects {
  import opened Wrappers
  import opened Energy
  import opened World
  import opened Economy
  import opened Lineage
  import opened Failure

  const TICK := 1.0 / 60.0

  function Positive(x: real): real {
    if x > 0.0 then x else 0.0
  }

  function Lesser(x: real, y: real): real {
    if x <= y then x else y
  }

  // ---------------------------------------------------------------- locomotion

  /** Only that one account differs. */
  predicate OnlyAccount(w: World, z: World, e: Entity) {
    e in w.nodes && e in z.nodes && z == w.(nodes := w.nodes[e := w.nodes[e].(account := z.nodes[e].account)])
  }

  /** An effort costs a tenth of its size, if the reserve covers it, and else nothing. */
  lemma EffortExactly(w: World, x: Effort)
    ensures var z, cost := SpendEffort(w, x), Positive(x.size * 0.1);
            if x.entity in w.nodes && w.nodes[x.entity].account.energy >= cost then
              OnlyAccount(w, z, x.entity)
              && Booked(w.nodes[x.entity].account, z.nodes[x.entity].account, Actuation, cost)
            else z == w
  {
    if x.entity in w.nodes { DebitExactly(w.nodes[x.entity].account, Actuation, Finite(x.size * 0.1)); }
  }

  // ---------------------------------------------------------------- drain

  /** What a node loses to its surroundings in one tick. */
  function Loss(n: Node, x: Exposure): real {
    var heat := 1.0 + Positive(x.thermal) * if x.sheltered then 0.25 else 1.0;
    Positive(0.6 * heat * (0.4 + 0.6 * n.conductivity) * TICK)
  }

  /** What a vent gains in one tick. */
  function Gain(n: Node, x: Exposure): real {
    if ThermalVent in n.tags then 2.0 * Positive(x.thermal) * TICK else 0.0
  }

  /** The node after one pass of drain: its structure worn by what it vents, and both flows in its books. */
  predicate Drained(n: Node, m: Node, x: Exposure) {
    && m == n.(account := m.account, structure := m.structure)
    && m.structure == n.structure - (if ThermalVent in n.tags then 0.3 * Positive(x.thermal) * TICK else 0.0)
    && m.account.energy == n.account.energy + Gain(n, x) - Loss(n, x)
    && (forall f :: Entry(m.account.ledger, f) == Entry(n.account.ledger, f) +
          if f.Vented? then Gain(n, x) else if f.Dissipated? then Loss(n, x) else 0.0)
  }

  lemma LossIs(n: Node, x: Exposure)
    ensures ValidAmount(Finite(DrainRate(n, x) * FIXED_DT)) == Loss(n, x)
  {
  }

  lemma BookedTwice(a: Account, b: Account, c: Account, gain: real, loss: real)
    requires Booked(a, b, Vented, gain) && Booked(b, c, Dissipated, loss)
    ensures c.energy == a.energy + gain - loss
    ensures forall f :: Entry(c.ledger, f) == Entry(a.ledger, f) +
              if f.Vented? then gain else if f.Dissipated? then loss else 0.0
  {
    forall f
      ensures Entry(c.ledger, f) == Entry(a.ledger, f) + if f.Vented? then gain else if f.Dissipated? then loss else 0.0
    {
      assert Entry(b.ledger, f) == Entry(a.ledger, f) + if f == Vented then gain else 0.0;
      assert Entry(c.ledger, f) == Entry(b.ledger, f) + if f == Dissipated then loss else 0.0;
    }
  }

  /** The account of a node before it is drained. */
  function Fed(n: Node, x: Exposure): Account {
    if ThermalVent in n.tags then Credited(n.account, Vented, Finite(2.0 * Max(x.thermal, 0.0) * FIXED_DT))
    else n.account
  }

  lemma FedIs(n: Node, x: Exposure)
    ensures Booked(n.account, Fed(n, x), Vented, Gain(n, x))
  {
    CreditExactly(n.account, Vented, Finite(2.0 * Max(x.thermal, 0.0) * FIXED_DT));
  }

  lemma DrainIs(n: Node, x: Exposure)
    ensures Drained(n, DrainNode(n, x), x)
  {
    var m := DrainNode(n, x);
    assert m.account == DrainedBy(Fed(n, x), Finite(DrainRate(n, x) * FIXED_DT));
    FedIs(n, x);
    LossIs(n, x);
    DrainedExactly(Fed(n, x), Finite(DrainRate(n, x) * FIXED_DT));
    BookedTwice(n.account, Fed(n, x), m.account, Gain(n, x), Loss(n, x));
  }

  /** It has energy but no structure left, and is large enough to divide. */
  predicate Crumbles(n: Node) {
    n.structure <= 0.0 && n.account.energy > 0.0 && n.mass >= 0.1 && n.yieldAt >= 1.0
  }

  predicate Depleted(n: Node) {
    n.account.energy <= 0.0
  }

  lemma DrainSelf(w: World, x: Exposure)
    requires x.entity in w.nodes && !w.nodes[x.entity].dead
    ensures var z, e := DrainOne(w, x), x.entity;
            && z.nodes.Keys == w.nodes.Keys && Drained(w.nodes[e], z.nodes[e], x)
            && (e in z.deaths <==> e in w.deaths || Depleted(z.nodes[e]))
            && (Queued(z.fragments, e) <==> Queued(w.fragments, e) || Crumbles(z.nodes[e]))
  {
    DrainIs(w.nodes[x.entity], x);
    QueueingQueues(w, x.entity, None, 0.0);
  }

  lemma QueueingOther(w: World, e: Entity, f: Entity, killer: Option<Entity>, share: real)
    requires e != f
    ensures Queued(QueueFragment(w, e, killer, share).fragments, f) <==> Queued(w.fragments, f)
  {
    var z := QueueFragment(w, e, killer, share);
    if Queued(w.fragments, f) { QueuedStays(w.fragments, z.fragments, f); }
  }

  lemma DrainOther(w: World, x: Exposure, e: Entity)
    requires x.entity != e
    ensures var z := DrainOne(w, x);
            && z.nodes.Keys == w.nodes.Keys && (e in w.nodes ==> z.nodes[e] == w.nodes[e])
            && (e in z.deaths <==> e in w.deaths) && (Queued(z.fragments, e) <==> Queued(w.fragments, e))
  {
    if x.entity in w.nodes {
      QueueingOther(SetNode(w, x.entity, DrainNode(w.nodes[x.entity], x)), x.entity, e, None, 0.0);
    }
  }

  lemma DrainAbsent(w: World, x: Exposure)
    requires x.entity !in w.nodes || w.nodes[x.entity].dead
    ensures DrainOne(w, x) == w
  {
  }

  /** The living node that the pass comes to with this exposure. */
  predicate Meets(w: World, x: Exposure, e: Entity) {
    x.entity == e && e in w.nodes && !w.nodes[e].dead
  }

  /** What the pass has made of the node, and of its place in the queues. */
  ghost predicate Judged(w: World, z: World, xs: seq<Exposure>, e: Entity) {
    && z.nodes.Keys == w.nodes.Keys
    && (if exists i :: 0 <= i < |xs| && Meets(w, xs[i], e) then
          && (exists i :: 0 <= i < |xs| && Meets(w, xs[i], e) && Drained(w.nodes[e], z.nodes[e], xs[i]))
          && (e in z.deaths <==> e in w.deaths || Depleted(z.nodes[e]))
          && (Queued(z.fragments, e) <==> Queued(w.fragments, e) || Crumbles(z.nodes[e]))
        else
          && (e in w.nodes ==> z.nodes[e] == w.nodes[e])
          && (e in z.deaths <==> e in w.deaths) && (Queued(z.fragments, e) <==> Queued(w.fragments, e)))
  }

  /**
   The drain pass. Every living node it comes to has lost what its surroundings took; it is on the
   death list from then on if and only if nothing is left of its reserve, and queued to fall apart
   if and only if it has energy but no structure and can be divided. Nobody else is touched.
   */
  lemma {:induction false} DrainJudges(w: World, xs: seq<Exposure>, e: Entity)
    requires VisitsOnce(xs)
    ensures Judged(w, DrainAll(w, xs), xs, e)
  {
    if xs != [] {
      var front, last := xs[..|xs| - 1], xs[|xs| - 1];
      DrainJudges(w, front, e);
      JudgedNext(w, DrainAll(w, front), front, last, e);
      assert front + [last] == xs;
    }
  }

  lemma JudgedNext(w: World, x: World, front: seq<Exposure>, last: Exposure, e: Entity)
    requires VisitsOnce(front + [last]) && Judged(w, x, front, e)
    ensures Judged(w, DrainOne(x, last), front + [last], e)
  {
    var all := front + [last];
    assert all[|front|] == last && forall i | 0 <= i < |front| :: all[i] == front[i];
    if last.entity == e {
      forall i | 0 <= i < |front| ensures !Meets(w, front[i], e) { assert all[i].entity != all[|front|].entity; }
      if Meets(w, last, e) { DrainSelf(x, last); } else if e in w.nodes { DrainAbsent(x, last); }
    } else {
      DrainOther(x, last, e);
    }
  }

  ghost predicate Once(es: seq<Entity>) {
    forall i, j | 0 <= i < j < |es| :: es[i] != es[j]
  }

  /** Nobody is listed twice. */
  lemma {:induction false} DeathsOnce(w: World, xs: seq<Exposure>)
    requires Once(w.deaths)
    ensures Once(DrainAll(w, xs).deaths)
  {
    if xs != [] { DeathsOnce(w, xs[..|xs| - 1]); }
  }

  // ---------------------------------------------------------------- transfers

  /** That much has gone from one account to another, under its flow, and nothing else has happened. */
  ghost predicate Moves(w: World, z: World, source: Entity, sink: Entity, amount: real, into: Flow) {
    && source in w.nodes && sink in w.nodes && source != sink && source in z.nodes && sink in z.nodes
    && Booked(w.nodes[source].account, z.nodes[source].account, Transferred, amount)
    && Booked(w.nodes[sink].account, z.nodes[sink].account, into, amount)
    && z == w.(nodes := w.nodes[source := w.nodes[source].(account := z.nodes[source].account)]
                               [sink := w.nodes[sink].(account := z.nodes[sink].account)])
  }

  lemma TransferMoves(w: World, source: Entity, sink: Entity, amount: real, into: Flow)
    requires source in w.nodes && sink in w.nodes && source != sink && (into.Harvested? || into.Consumed?)
    ensures Moves(w, Transfer(w, source, sink, amount, into), source, sink,
                  Lesser(Positive(amount), Positive(w.nodes[source].account.energy)), into)
  {
    var n, m := w.nodes[source], w.nodes[sink];
    DebitAtMost(n.account, Transferred, Finite(amount));
    CreditExactly(m.account, into, Finite(AvailableAmount(n.account, Transferred, Finite(amount))));
  }

  /** An agent and another node that can be harvested, close enough and fast enough past each other. */
  predicate Grazes(w: World, x: Contact) {
    && x.agent in w.nodes && x.other in w.nodes && x.agent != x.other
    && AgentTag in w.nodes[x.agent].tags && EnergyConvertible in w.nodes[x.other].tags
    && (w.nodes[x.other].x - w.nodes[x.agent].x) * (w.nodes[x.other].x - w.nodes[x.agent].x)
       + (w.nodes[x.other].y - w.nodes[x.agent].y) * (w.nodes[x.other].y - w.nodes[x.agent].y) <= 16.0
    && x.speed >= 1.5
  }

  /** The agent takes from the other node, and never the other way: the faster, the more, up to all there is. */
  lemma HarvestExactly(w: World, x: Contact)
    ensures var z := HarvestOne(w, x);
            if Grazes(w, x) && w.nodes[x.other].account.energy > 0.0
            then Moves(w, z, x.other, x.agent, Lesser(1.5 * (x.speed - 0.5) * TICK, w.nodes[x.other].account.energy),
                       Harvested)
            else z == w
  {
    if Grazes(w, x) && w.nodes[x.other].account.energy > 0.0 {
      var energy := w.nodes[x.other].account.energy;
      assert 1.5 * (x.speed - 0.5) * TICK > 0.0;
      TransferMoves(w, x.other, x.agent, Min(HarvestRate(x), Max(energy, 0.0)), Harvested);
    }
  }

  /** A killer takes what it has coming of its victim, or what is left of it; without a killer nothing moves. */
  lemma ConsumeExactly(w: World, f: FragmentEntry)
    ensures var z := ConsumeOne(w, f);
            if f.killer.Some? && f.share > 0.0 && f.victim in w.nodes && f.killer.value in w.nodes
               && f.victim != f.killer.value
            then Moves(w, z, f.victim, f.killer.value,
                       Lesser(f.share, Positive(w.nodes[f.victim].account.energy)), Consumed)
            else z == w
  {
    if f.killer.Some? && f.share > 0.0 && f.victim in w.nodes && f.killer.value in w.nodes
       && f.victim != f.killer.value {
      TransferMoves(w, f.victim, f.killer.value, f.share, Consumed);
    }
  }

  // ---------------------------------------------------------------- traps

  /** How strongly a trap's release is drawn to what its query returned: only to agents, and the nearer the more. */
  function Pull(w: World, trap: Entity, x: Nearby): real {
    if x.entity in w.nodes && x.entity != trap && AgentTag in w.nodes[x.entity].tags
    then 1.0 / (if x.distance >= 0.1 then x.distance else 0.1) else 0.0
  }

  function PullOfAll(w: World, trap: Entity, near: seq<Nearby>): real {
    if near == [] then 0.0 else PullOfAll(w, trap, near[..|near| - 1]) + Pull(w, trap, near[|near| - 1])
  }

  function PullOf(w: World, trap: Entity, near: seq<Nearby>, e: Entity): real {
    if near == [] then 0.0
    else PullOf(w, trap, near[..|near| - 1], e) +
         if near[|near| - 1].entity == e then Pull(w, trap, near[|near| - 1]) else 0.0
  }

  function WeightTo(weights: seq<Weight>, e: Entity): real {
    if weights == [] then 0.0
    else WeightTo(weights[..|weights| - 1], e) +
         if weights[|weights| - 1].entity == e then weights[|weights| - 1].weight else 0.0
  }

  lemma WeightMore(weights: seq<Weight>, x: Weight, e: Entity)
    ensures TotalWeight(weights + [x]) == TotalWeight(weights) + x.weight
    ensures WeightTo(weights + [x], e) == WeightTo(weights, e) + if x.entity == e then x.weight else 0.0
  {
    assert (weights + [x])[..|weights|] == weights;
  }

  lemma {:induction false} WeightsPull(w: World, trap: Entity, near: seq<Nearby>, e: Entity)
    ensures TotalWeight(Weights(w, trap, near)) == PullOfAll(w, trap, near)
    ensures WeightTo(Weights(w, trap, near), e) == PullOf(w, trap, near, e)
  {
    if near != [] {
      var front, x := near[..|near| - 1], near[|near| - 1];
      var before := Weights(w, trap, front);
      WeightsPull(w, trap, front, e);
      WeightMore(before, Weight(x.entity, Pull(w, trap, x)), e);
      assert before + [] == before;
    }
  }

  function PaidTo(payments: seq<Payment>, e: Entity): real {
    if payments == [] then 0.0
    else PaidTo(payments[..|payments| - 1], e) +
         if payments[|payments| - 1].entity == e then payments[|payments| - 1].amount else 0.0
  }

  lemma PaidMore(payments: seq<Payment>, p: Payment, e: Entity)
    ensures PaidTo(payments + [p], e) == PaidTo(payments, e) + if p.entity == e then p.amount else 0.0
  {
    assert (payments + [p])[..|payments|] == payments;
  }

  lemma {:induction false} SharesTo(weights: seq<Weight>, released: real, total: real, e: Entity)
    requires total > 0.0
    ensures PaidTo(Shares(weights, released, total), e) == ShareOf(released, WeightTo(weights, e), total)
  {
    if weights == [] {
      WholeProportion(released, total);
    } else {
      var front, last := weights[..|weights| - 1], weights[|weights| - 1];
      SharesTo(front, released, total, e);
      PaidMore(Shares(front, released, total), Payment(last.entity, ShareOf(released, last.weight, total)), e);
      ShareAdds(released, WeightTo(front, e), last.weight, total);
    }
  }

  lemma ShareAdds(released: real, a: real, b: real, total: real)
    requires total > 0.0
    ensures ShareOf(released, a + b, total) == ShareOf(released, a, total) + ShareOf(released, b, total)
  {
    SplitProportion(released, a, b, total);
  }

  lemma {:induction false} PayBooks(w: World, payments: seq<Payment>, e: Entity)
    requires Payable(w, payments) && e in w.nodes
    ensures var z := PayAll(w, payments);
            && z.nodes.Keys == w.nodes.Keys && z == w.(nodes := z.nodes)
            && z.nodes[e] == w.nodes[e].(account := z.nodes[e].account)
            && Booked(w.nodes[e].account, z.nodes[e].account, Harvested, PaidTo(payments, e))
  {
    if payments != [] {
      var front, last := payments[..|payments| - 1], payments[|payments| - 1];
      PayBooks(w, front, e);
      var x := PayAll(w, front);
      CreditExactly(x.nodes[e].account, Harvested, Finite(last.amount));
    }
  }

  /** A trap with something to release, and an agent near it. */
  predicate Springs(w: World, x: Spike) {
    && x.trap in w.nodes && VolatileTrap in w.nodes[x.trap].tags && w.nodes[x.trap].account.energy > 0.0
    && PullOfAll(w, x.trap, x.near) > 0.0
  }

  /** What the release does to one account. */
  ghost predicate Partakes(w: World, z: World, x: Spike, e: Entity)
    requires Springs(w, x) && e in w.nodes
  {
    var half := w.nodes[x.trap].account.energy / 2.0;
    && z.nodes.Keys == w.nodes.Keys && z == w.(nodes := z.nodes)
    && z.nodes[e] == w.nodes[e].(account := z.nodes[e].account)
    && (if e == x.trap then Booked(w.nodes[e].account, z.nodes[e].account, Transferred, half)
        else Booked(w.nodes[e].account, z.nodes[e].account, Harvested,
                    half * (PullOf(w, x.trap, x.near, e) / PullOfAll(w, x.trap, x.near))))
  }

  /**
   A trap lets go of half its reserve, and each agent near it gets its share in proportion to the
   inverse of its distance, counted as a tenth of a unit at least; all of that is harvested.
   */
  lemma TrapExactly(w: World, x: Spike, e: Entity)
    requires e in w.nodes
    ensures if Springs(w, x) then Partakes(w, DischargeOne(w, x), x, e) else DischargeOne(w, x) == w
  {
    WeightsPull(w, x.trap, x.near, e);
    if Springs(w, x) { TrapReleases(w, x, e); }
  }

  lemma {:induction false} NoPullToTrap(w: World, trap: Entity, near: seq<Nearby>)
    ensures PullOf(w, trap, near, trap) == 0.0
  {
    if near != [] { NoPullToTrap(w, trap, near[..|near| - 1]); }
  }

  /** The world once the trap has let go, before anyone is paid. */
  function Sprung(w: World, x: Spike): World
    requires Springs(w, x)
  {
    var n := w.nodes[x.trap];
    SetNode(w, x.trap, n.(account := DebitedAvailable(n.account, Transferred, Finite(n.account.energy / 2.0))))
  }

  lemma SprungBooks(w: World, x: Spike)
    requires Springs(w, x)
    ensures Booked(w.nodes[x.trap].account, Sprung(w, x).nodes[x.trap].account, Transferred,
                   w.nodes[x.trap].account.energy / 2.0)
  {
    DebitAtMost(w.nodes[x.trap].account, Transferred, Finite(w.nodes[x.trap].account.energy / 2.0));
  }

  lemma ReleaseIs(w: World, x: Spike)
    requires Springs(w, x) && TotalWeight(Weights(w, x.trap, x.near)) == PullOfAll(w, x.trap, x.near)
    ensures DischargeOne(w, x) ==
            PayAll(Sprung(w, x), Shares(Weights(w, x.trap, x.near), w.nodes[x.trap].account.energy / 2.0,
                                        PullOfAll(w, x.trap, x.near)))
  {
    HalfReleased(w.nodes[x.trap].account);
  }

  lemma HalfReleased(a: Account)
    requires a.energy > 0.0
    ensures Max(a.energy, 0.0) * VOLATILE_TRAP_DRAIN_FRACTION == a.energy / 2.0
    ensures AvailableAmount(a, Transferred, Finite(a.energy / 2.0)) == a.energy / 2.0
  {
  }

  lemma PaidShares(base: World, weights: seq<Weight>, released: real, total: real, e: Entity)
    requires released >= 0.0 && total > 0.0 && e in base.nodes
    requires forall x | x in weights :: x.entity in base.nodes && x.weight > 0.0
    ensures var z := PayAll(base, Shares(weights, released, total));
            && z.nodes.Keys == base.nodes.Keys && z == base.(nodes := z.nodes)
            && z.nodes[e] == base.nodes[e].(account := z.nodes[e].account)
            && Booked(base.nodes[e].account, z.nodes[e].account, Harvested,
                      ShareOf(released, WeightTo(weights, e), total))
  {
    SharesReach(base, weights, released, total);
    PayBooks(base, Shares(weights, released, total), e);
    SharesTo(weights, released, total, e);
  }

  lemma TrapReleases(w: World, x: Spike, e: Entity)
    requires e in w.nodes && Springs(w, x)
    ensures Partakes(w, DischargeOne(w, x), x, e)
  {
    var weights := Weights(w, x.trap, x.near);
    WeightsPull(w, x.trap, x.near, e);
    SprungBooks(w, x);
    ReleaseIs(w, x);
    WeightsPresent(w, x.trap, x.near);
    PaidShares(Sprung(w, x), weights, w.nodes[x.trap].account.energy / 2.0, PullOfAll(w, x.trap, x.near), e);
    PartakesIn(w, DischargeOne(w, x), x, e);
  }

  lemma PartakesIn(w: World, z: World, x: Spike, e: Entity)
    requires e in w.nodes && Springs(w, x)
    requires z.nodes.Keys == w.nodes.Keys && z == Sprung(w, x).(nodes := z.nodes)
    requires z.nodes[e] == Sprung(w, x).nodes[e].(account := z.nodes[e].account)
    requires Booked(Sprung(w, x).nodes[e].account, z.nodes[e].account, Harvested,
                    ShareOf(w.nodes[x.trap].account.energy / 2.0, PullOf(w, x.trap, x.near, e),
                            PullOfAll(w, x.trap, x.near)))
    requires Booked(w.nodes[x.trap].account, Sprung(w, x).nodes[x.trap].account, Transferred,
                    w.nodes[x.trap].account.energy / 2.0)
    ensures Partakes(w, z, x, e)
  {
    if e == x.trap { TrapUnpaid(w, z, x); }
  }

  lemma TrapUnpaid(w: World, z: World, x: Spike)
    requires Springs(w, x) && x.trap in z.nodes
    requires Booked(Sprung(w, x).nodes[x.trap].account, z.nodes[x.trap].account, Harvested,
                    ShareOf(w.nodes[x.trap].account.energy / 2.0, PullOf(w, x.trap, x.near, x.trap),
                            PullOfAll(w, x.trap, x.near)))
    requires Booked(w.nodes[x.trap].account, Sprung(w, x).nodes[x.trap].account, Transferred,
                    w.nodes[x.trap].account.energy / 2.0)
    ensures Booked(w.nodes[x.trap].account, z.nodes[x.trap].account, Transferred, w.nodes[x.trap].account.energy / 2.0)
  {
    NoPullToTrap(w, x.trap, x.near);
    WholeProportion(w.nodes[x.trap].account.energy / 2.0, PullOfAll(w, x.trap, x.near));
    Unpaid(w.nodes[x.trap].account, Sprung(w, x).nodes[x.trap].account, z.nodes[x.trap].account,
           w.nodes[x.trap].account.energy / 2.0);
  }

  /** A payment of nothing changes nothing. */
  lemma Unpaid(a: Account, b: Account, c: Account, amount: real)
    requires Booked(a, b, Transferred, amount) && Booked(b, c, Harvested, 0.0)
    ensures Booked(a, c, Transferred, amount)
  {
  }

  // ---------------------------------------------------------------- blows

  /** Stress fades to 92 hundredths, and what is next to nothing to nothing. */
  lemma RelaxExactly(w: World, e: Entity)
    requires e in w.nodes
    ensures var n, z := w.nodes[e], RelaxStress(w);
            && z.nodes.Keys == w.nodes.Keys && z == w.(nodes := z.nodes)
            && z.nodes[e] == n.(stress := if n.stress * 0.92 < 0.0001 then 0.0 else n.stress * 0.92)
  {
  }

  /** Who has half of a broken victim's reserve coming: the agent that struck it, if one did. */
  predicate Claims(w: World, x: Impact, killer: Option<Entity>, share: real)
    requires x.victim in w.nodes
  {
    if x.source in w.nodes && AgentTag in w.nodes[x.source].tags
    then killer == Some(x.source) && share == w.nodes[x.victim].account.energy / 2.0
    else killer == None && share == 0.0
  }

  /**
   A blow adds to the stress of its victim as long as it yields nothing; beyond that a quarter of
   the excess is taken off its structure, and half the yield stays as stress. A victim that crumbles
   by it is queued, once, with what its killer has coming.
   */
  lemma BlowExactly(w: World, x: Impact)
    requires x.victim in w.nodes && x.impulse > 0.0
    ensures var n, z, load := w.nodes[x.victim], ImpactOne(w, x), w.nodes[x.victim].stress + x.impulse;
            && x.victim in z.nodes
            && var m := z.nodes[x.victim];
               && z == w.(nodes := w.nodes[x.victim := m], fragments := z.fragments)
               && (load <= n.yieldAt ==> m == n.(stress := load) && z.fragments == w.fragments)
               && (load > n.yieldAt ==>
                     && m == n.(stress := n.yieldAt / 2.0, structure := n.structure - (load - n.yieldAt) / 4.0)
                     && if Crumbles(m) && !Queued(w.fragments, x.victim) then
                          && |z.fragments| == |w.fragments| + 1 && w.fragments <= z.fragments
                          && var f := z.fragments[|w.fragments|];
                             f.victim == x.victim && Claims(w, x, f.killer, f.share)
                        else z.fragments == w.fragments)
  {
  }

  lemma NoBlow(w: World, x: Impact)
    requires x.victim !in w.nodes || x.impulse <= 0.0
    ensures ImpactOne(w, x) == w
  {
  }

  // ---------------------------------------------------------------- falling apart and dying

  /** One of `count` daughters: an equal part of what there was, where it was scattered to, and no agent. */
  predicate IsDaughter(n: Node, m: Node, count: nat, d: DaughterDraw)
    requires count > 0
  {
    && m.mass * count as real == n.mass && m.yieldAt * count as real == n.yieldAt && m.structure == m.yieldAt
    && m.account.energy * count as real == Positive(n.account.energy)
    && m.tags == d.tags - {AgentTag, ClampCapable} && m.agent.None? && !m.dead && m.origin.None?
    && m.x == n.x + d.dx && m.y == n.y + d.dy && m.stress == 0.0
    && m.conductivity == (if Shelter in d.tags then 0.2 else 0.6)
  }

  lemma DaughterIs(n: Node, count: nat, d: DaughterDraw)
    requires count > 0
    ensures IsDaughter(n, Daughter(n, count, d), count, d)
  {
  }

  lemma FloorAtLeast(x: real, unit: real, k: nat)
    requires unit > 0.0
    ensures (x / unit).Floor >= k <==> x >= unit * k as real
  {
    var q := x / unit;
    assert q * unit == x;
    if q >= k as real { assert q * unit >= k as real * unit; } else { assert q * unit < k as real * unit; }
  }

  /** Three daughters if the draw says so and there is enough for three, and else two, if there is enough for two. */
  lemma CountExactly(n: Node, triplet: bool)
    ensures DaughterCount(n, triplet) ==
            if n.mass >= 0.15 && n.yieldAt >= 1.5 && triplet then Some(3)
            else if n.mass >= 0.1 && n.yieldAt >= 1.0 then Some(2) else None
  {
    FloorAtLeast(n.mass, MIN_DAUGHTER_MASS, 2);
    FloorAtLeast(n.mass, MIN_DAUGHTER_MASS, 3);
    FloorAtLeast(n.yieldAt, MIN_DAUGHTER_STRUCTURE, 2);
    FloorAtLeast(n.yieldAt, MIN_DAUGHTER_STRUCTURE, 3);
  }

  /** The draw of the k-th daughter. */
  function DrawOf(x: SplitDraw, k: nat): DaughterDraw {
    if k == 0 then x.first else if k == 1 then x.second else x.third
  }

  /** What is left of the world without the node: the others as they were, and the joints not on it. */
  predicate Without(w: World, z: World, v: Entity) {
    && v !in z.nodes && (forall e | e in w.nodes && e != v :: e in z.nodes && z.nodes[e] == w.nodes[e])
    && (forall j | j in z.joints :: j in w.joints && z.joints[j] == w.joints[j])
    && (forall j | j in w.joints :: j in z.joints <==> w.joints[j].owner != v && w.joints[j].target != v)
  }

  /** A division: the victim goes, with the joints on it, and its two or three daughters come. */
  lemma SplitExactly(w: World, v: Entity, x: SplitDraw)
    requires Keyed(w) && v in w.nodes
    ensures var n, z := w.nodes[v], SplitOne(w, v, x);
            var count: nat :=
              if n.mass >= 0.15 && n.yieldAt >= 1.5 && x.triplet then 3
              else if n.mass >= 0.1 && n.yieldAt >= 1.0 then 2 else 0;
            if count == 0 then z == w
            else
              && Without(w, z, v) && z.next == w.next + count
              && forall k: nat | k < count :: IsPart(n, z, w.next + k, count, DrawOf(x, k))
  {
    var n := w.nodes[v];
    CountExactly(n, x.triplet);
    var count := DaughterCount(n, x.triplet);
    if count.Some? { DividedExactly(w, v, count.value, x); }
  }

  predicate IsPart(n: Node, z: World, e: Entity, count: nat, d: DaughterDraw)
    requires count > 0
  {
    e in z.nodes && IsDaughter(n, z.nodes[e], count, d)
  }

  lemma DividedExactly(w: World, v: Entity, count: nat, x: SplitDraw)
    requires Keyed(w) && v in w.nodes && (count == 2 || count == 3)
    ensures var n, z := w.nodes[v], Divided(w, v, count, x);
            && Without(w, z, v) && z.next == w.next + count
            && forall k: nat | k < count :: IsPart(n, z, w.next + k, count, DrawOf(x, k))
  {
    var n, base, ns := w.nodes[v], Counted(Despawn(w, v), 1), Daughters(w.nodes[v], count, x);
    assert Keyed(base) && |ns| == count;
    SpawnAllExtends(base, ns);
    forall k: nat | k < count ensures IsPart(n, Divided(w, v, count, x), w.next + k, count, DrawOf(x, k)) {
      SpawnedAt(base, ns, k);
      DaughterIs(n, count, DrawOf(x, k));
    }
  }

  /** A death ends an agent and opens every joint on it; the body stays as it is, with all it has. */
  lemma DeathExactly(w: World, e: Entity)
    requires e in w.nodes
    ensures var n, z := w.nodes[e], DieOne(w, e);
            && z == w.(nodes := z.nodes, joints := z.joints) && z.nodes.Keys == w.nodes.Keys
            && (forall f | f in w.nodes && f != e :: z.nodes[f] == w.nodes[f])
            && z.nodes[e] == n.(tags := n.tags - {AgentTag, ClampCapable}, agent := None, dead := true)
            && (forall j | j in z.joints :: j in w.joints && z.joints[j] == w.joints[j])
            && (forall j | j in w.joints :: j in z.joints <==> w.joints[j].owner != e && w.joints[j].target != e)
  {
  }

  // ---------------------------------------------------------------- births

  /** The clocks of reproduction, and nothing else about the node, may differ. */
  predicate OnlyClocks(n: Node, m: Node, surplus: real, cooldown: real) {
    && n.agent.Some? && m.agent.Some?
    && m == n.(agent := Some(n.agent.value.(surplus := surplus, birthCooldown := cooldown)))
  }

  /** A child of an agent: what it is given, where it is put, and nothing in its hand. */
  predicate IsChild(n: Node, m: Node, x: BirthDraw) {
    && n.agent.Some? && m.agent.Some? && !m.dead && m.origin.None?
    && m.account.energy == 12.0 && m.mass == 1.5 && m.x == n.x + x.dx && m.y == n.y + x.dy
    && m.yieldAt == (if x.yieldAt >= 1.0 then x.yieldAt else 1.0) && m.structure == m.yieldAt && m.stress == 0.0
    && m.tags == {AgentTag, ClampCapable, OscillatorTag} && m.conductivity == 0.6
    && m.agent.value.generation == AtMost(U32_MAX, n.agent.value.generation + 1)
    && m.agent.value.clamp.target.None? && m.agent.value.clamp.joint.None? && m.agent.value.clamp.cooldown == 0.0
    && m.agent.value.fabricate == 0.0 && m.agent.value.surplus == 0.0 && m.agent.value.birthCooldown == 0.0
  }

  /** An agent that could give birth: enough energy and mass, and rested. */
  predicate Fertile(n: Node) {
    n.agent.Some? && n.account.energy >= 32.0 && n.mass >= 2.0 && n.agent.value.birthCooldown <= TICK
  }

  /**
   One agent considered for reproduction. A child is born if and only if the agent is fertile, has
   been for five seconds, and consents; it costs the parent 12 units of energy and 1.5 of mass, and
   20 seconds. Otherwise only its clocks change.
   */
  lemma BirthExactly(w: World, x: BirthDraw)
    requires Keyed(w) && IsAgent(w, x.entity)
    ensures var n, z := w.nodes[x.entity], ReproduceOne(w, x);
            var a, ripe := n.agent.value, Fertile(n) && n.agent.value.surplus + TICK >= 5.0;
            && x.entity in z.nodes
            && (z.next == w.next + 1 <==> ripe && x.consents)
            && (forall e | e in w.nodes && e != x.entity :: e in z.nodes && z.nodes[e] == w.nodes[e])
            && (ripe && x.consents ==>
                  && w.next in z.nodes && IsChild(n, z.nodes[w.next], x)
                  && z.nodes[x.entity].mass == n.mass - 1.5
                  && Booked(n.account, z.nodes[x.entity].account, Offspring, 12.0)
                  && OnlyClocks(n.(account := z.nodes[x.entity].account, mass := z.nodes[x.entity].mass),
                                z.nodes[x.entity], 0.0, 20.0))
            && (!(ripe && x.consents) ==>
                  && z.nodes.Keys == w.nodes.Keys && z == w.(nodes := z.nodes)
                  && OnlyClocks(n, z.nodes[x.entity],
                                if Fertile(n) && !ripe then a.surplus + TICK else 0.0,
                                if ripe then 20.0 else Positive(a.birthCooldown - TICK)))
  {
    DebitExactly(w.nodes[x.entity].account, Offspring, Finite(12.0));
  }
}
