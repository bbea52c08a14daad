/**
 What a command comes to, in numbers: which hand ends up holding what, what the oscillator, the
 hold and a structure cost, and which grips cleanup leaves alone.
 */
module Commands {
  import opened Wrappers
  import opened Energy
  import opened World
  import opened Actuation

  const TICK := 1.0 / 60.0

  // ---------------------------------------------------------------- the oscillator

  /** What it costs to drive the oscillator of a node: nothing, if it has none or cannot pay. */
  function DriveCost(n: Node, frequency: real): real {
    if n.oscillator.None? then 0.0
    else
      var apart := frequency - n.oscillator.value;
      var cost := (if apart >= 0.0 then apart else -apart) * 0.005;
      if n.account.energy >= cost then cost else 0.0
  }

  /** The oscillator goes a fifteenth of the way to the frequency asked for, if the reserve pays for the distance. */
  lemma DriveExactly(w: World, e: Entity, frequency: real)
    requires e in w.nodes
    ensures var n, z, cost := w.nodes[e], Drive(w, e, frequency), DriveCost(w.nodes[e], frequency);
            && e in z.nodes && z == w.(nodes := w.nodes[e := z.nodes[e]])
            && z.nodes[e] == n.(account := z.nodes[e].account, oscillator := z.nodes[e].oscillator)
            && Booked(n.account, z.nodes[e].account, Flow.Actuation, cost)
            && (cost > 0.0 ==>
                  n.oscillator.Some? && z.nodes[e].oscillator ==
                  Some(n.oscillator.value + (frequency - n.oscillator.value) / 15.0))
            && (cost == 0.0 ==> z == w)
  {
    if w.nodes[e].oscillator.Some? {
      if DriveCost(w.nodes[e], frequency) == 0.0 { NothingDriven(w, e, frequency); } else { Driven(w, e, frequency); }
    }
  }

  lemma Driven(w: World, e: Entity, frequency: real)
    requires e in w.nodes && w.nodes[e].oscillator.Some? && DriveCost(w.nodes[e], frequency) > 0.0
    ensures var n, z := w.nodes[e], Drive(w, e, frequency);
            && z == w.(nodes := w.nodes[e := z.nodes[e]])
            && z.nodes[e] == n.(account := z.nodes[e].account, oscillator := z.nodes[e].oscillator)
            && Booked(n.account, z.nodes[e].account, Flow.Actuation, DriveCost(n, frequency))
            && z.nodes[e].oscillator == Some(n.oscillator.value + (frequency - n.oscillator.value) / 15.0)
  {
    var n := w.nodes[e];
    DebitExactly(n.account, Flow.Actuation, Finite(Abs(frequency - n.oscillator.value) * 0.005));
    SameFrequency(n.oscillator.value, frequency);
  }

  lemma SameFrequency(now: real, frequency: real)
    ensures (frequency - now) * (OSC_RESPONSE * FIXED_DT) == (frequency - now) / 15.0
  {
  }

  /** Without a cost nothing is driven: there is no distance to go, or it cannot be paid. */
  lemma NothingDriven(w: World, e: Entity, frequency: real)
    requires e in w.nodes && w.nodes[e].oscillator.Some? && DriveCost(w.nodes[e], frequency) == 0.0
    ensures Drive(w, e, frequency) == w
  {
    var n, z := w.nodes[e], Drive(w, e, frequency);
    var cost := Finite(Abs(frequency - n.oscillator.value) * 0.005);
    DebitExactly(n.account, Flow.Actuation, cost);
    if Affordable(n.account, Flow.Actuation, cost) {
      assert ValidAmount(cost) == 0.0 && frequency == n.oscillator.value;
      SameEntries(n.account.ledger, z.nodes[e].account.ledger);
      assert z.nodes[e] == n;
    }
  }

  // ---------------------------------------------------------------- the hand

  /** The node a command asks the open hand to take: a node that is there, other than itself. */
  predicate Offered(w: World, c: Command, t: Entity) {
    c.nearest == Some(t) && t in w.nodes && t != c.entity
  }

  /** What the hand is on when the hold is paid for: what it held, or what it takes now. */
  predicate Reaches(w: World, c: Command, t: Entity) {
    var hand := GripOf(w, c.entity);
    && c.clamp > 0.5
    && (hand.target == Some(t) || (hand.target.None? && hand.cooldown <= TICK && Offered(w, c, t)))
  }

  /** The reserve once the oscillator is driven. */
  function Left(w: World, c: Command): real
    requires c.entity in w.nodes
  {
    w.nodes[c.entity].account.energy - DriveCost(w.nodes[c.entity], c.frequency)
  }

  lemma DrivenHand(w: World, c: Command)
    requires IsAgent(w, c.entity)
    ensures var x := Drive(w, c.entity, c.frequency);
            && IsAgent(x, c.entity) && x.nodes.Keys == w.nodes.Keys && x.next == w.next && x.joints == w.joints
            && GripOf(x, c.entity) == GripOf(w, c.entity) && x.nodes[c.entity].account.energy == Left(w, c)
            && x.nodes[c.entity].agent == w.nodes[c.entity].agent
  {
    DriveExactly(w, c.entity, c.frequency);
  }

  /** The hand after the grip has been closed or opened. */
  lemma GripDecides(w: World, e: Entity, clamp: real, nearest: Option<Entity>, t: Entity)
    requires IsAgent(w, e) && ClampOk(GripOf(w, e)) && Keyed(w) && HoldOk(w, e)
    ensures var z, hand := Grip(w, e, clamp, nearest), GripOf(w, e);
            && z.nodes.Keys == w.nodes.Keys && IsAgent(z, e) && z.nodes[e].account == w.nodes[e].account
            && (GripOf(z, e).target == Some(t) <==>
                && clamp > 0.5
                && (hand.target == Some(t)
                    || (hand.target.None? && hand.cooldown <= TICK && nearest == Some(t) && t in w.nodes && t != e)))
  {
  }

  /** Holding on costs 0.4 units a second, and is over when the target or the reserve is gone. */
  lemma StrainDecides(w: World, e: Entity, t: Entity)
    requires IsAgent(w, e)
    ensures var z := Strain(w, e);
            && z.nodes.Keys == w.nodes.Keys && IsAgent(z, e)
            && (GripOf(z, e).target == Some(t) <==>
                GripOf(w, e).target == Some(t) && t in w.nodes && w.nodes[e].account.energy > 0.4 * TICK)
  {
    DebitAtMost(w.nodes[e].account, Flow.Actuation, Finite(CLAMP_DRAIN * FIXED_DT));
  }

  lemma FabricateLeavesHand(w: World, e: Entity, trigger: real)
    requires IsAgent(w, e) && e < w.next
    ensures GripOf(Fabricate(w, e, trigger), e) == GripOf(w, e) && IsAgent(Fabricate(w, e, trigger), e)
  {
  }

  /**
   The hand. After a command an agent holds a node if and only if it was told to, held that node
   before or took it with an open, cooled hand because it was the nearest, the node is there, and
   the reserve outlasts the oscillator and the hold.
   */
  lemma HoldsExactly(w: World, c: Command, t: Entity)
    requires Good(w) && IsAgent(w, c.entity)
    ensures GripOf(ApplyOne(w, c), c.entity).target == Some(t) <==>
            Reaches(w, c, t) && t in w.nodes && Left(w, c) > 0.4 * TICK
  {
    var x := Drive(w, c.entity, c.frequency);
    DrivenHand(w, c);
    DriveStep(w, c.entity, c.frequency);
    assert NodeOk(x.nodes[c.entity]) && HoldOk(x, c.entity);
    GripDecides(x, c.entity, c.clamp, c.nearest, t);
    var y := Grip(x, c.entity, c.clamp, c.nearest);
    GripStep(x, c.entity, c.clamp, c.nearest);
    StrainDecides(y, c.entity, t);
    StrainStep(y, c.entity);
    FabricateLeavesHand(Strain(y, c.entity), c.entity, c.fabricate);
  }

  /** A hand that lets go is empty and has a second and a half to cool, and its joint is gone. */
  lemma LetsGoExactly(w: World, e: Entity, clamp: real, nearest: Option<Entity>)
    requires Good(w) && IsAgent(w, e) && Held(w, e).Some?
    ensures var z := Strain(Grip(w, e, clamp, nearest), e);
            Held(z, e).None? ==> GripOf(z, e) == Clamp(None, None, 1.5) && Held(w, e).value !in z.joints
  {
    assert NodeOk(w.nodes[e]) && HoldOk(w, e);
  }

  /** A hand that takes hold makes a joint of its own on the node it takes. */
  lemma TakesHoldExactly(w: World, e: Entity, clamp: real, nearest: Option<Entity>)
    requires Good(w) && IsAgent(w, e) && Held(w, e).None?
    ensures var z := Strain(Grip(w, e, clamp, nearest), e);
            Held(z, e).Some? ==>
              && GripOf(z, e).target == nearest && nearest.Some? && Held(z, e).value in z.joints
              && Held(z, e).value !in w.joints && z.joints[Held(z, e).value] == Joint(e, nearest.value)
  {
    assert NodeOk(w.nodes[e]) && HoldOk(w, e);
  }

  // ---------------------------------------------------------------- structures

  /** The node is a structure for shelter, freshly made beside its maker. */
  predicate IsStructure(m: Node, x: real, y: real) {
    && m.account.energy == 3.0 && m.mass == 0.5 && m.structure == 12.0 && m.yieldAt == 12.0 && m.stress == 0.0
    && m.tags == {Shelter} && m.conductivity == 0.2 && m.x == x + 1.0 && m.y == y
    && m.agent.None? && !m.dead && m.origin.None?
  }

  /** It was told to, has waited long enough, and has what a structure takes. */
  predicate CanBuild(n: Node, trigger: real) {
    && n.agent.Some? && trigger > 0.5 && n.agent.value.fabricate <= TICK && n.account.energy >= 3.0 && n.mass >= 0.5
  }

  /**
   Fabrication. A structure is made if and only if the agent is told to, has waited, and can pay 3
   units of energy and half a unit of mass for it; then it has three seconds to wait again.
   */
  lemma FabricateExactly(w: World, e: Entity, trigger: real)
    requires Keyed(w) && IsAgent(w, e)
    ensures var n, z := w.nodes[e], Fabricate(w, e, trigger);
            && IsAgent(z, e) && (forall f | f in w.nodes && f != e :: f in z.nodes && z.nodes[f] == w.nodes[f])
            && z.joints == w.joints
            && (CanBuild(n, trigger) ==>
                  && z.next == w.next + 1 && w.next in z.nodes && IsStructure(z.nodes[w.next], n.x, n.y)
                  && Booked(n.account, z.nodes[e].account, Flow.Fabrication, 3.0) && z.nodes[e].mass == n.mass - 0.5
                  && z.nodes[e].agent == Some(n.agent.value.(fabricate := 3.0)))
            && (!CanBuild(n, trigger) ==>
                  && z.next == w.next && z.nodes.Keys == w.nodes.Keys
                  && z.nodes[e] == n.(agent := z.nodes[e].agent)
                  && z.nodes[e].agent == Some(n.agent.value.(fabricate :=
                       if n.agent.value.fabricate > 0.0 then n.agent.value.fabricate - TICK
                       else n.agent.value.fabricate)))
  {
    DebitExactly(w.nodes[e].account, Flow.Fabrication, Finite(3.0));
  }

  // ---------------------------------------------------------------- the whole command

  /** What the hold costs: no more than there is. */
  function HoldCost(left: real): real {
    if left >= 0.4 * TICK then 0.4 * TICK else if left > 0.0 then left else 0.0
  }

  /** The account after actuation and, perhaps, a structure. */
  predicate Spent(a: Account, b: Account, actuation: real, fabrication: real) {
    && b.energy == a.energy - actuation - fabrication
    && forall f :: Entry(b.ledger, f) == Entry(a.ledger, f) +
         if f.Actuation? then actuation else if f.Fabrication? then fabrication else 0.0
  }

  lemma GripLeaves(w: World, e: Entity, clamp: real, nearest: Option<Entity>)
    requires IsAgent(w, e)
    ensures var z := Grip(w, e, clamp, nearest);
            && z.nodes[e] == w.nodes[e].(agent := z.nodes[e].agent)
            && z.nodes[e].agent.value.fabricate == w.nodes[e].agent.value.fabricate
  {
  }

  lemma StrainCosts(w: World, e: Entity)
    requires IsAgent(w, e)
    ensures var n, z, target := w.nodes[e], Strain(w, e), GripOf(w, e).target;
            && z.nodes[e] == n.(agent := z.nodes[e].agent, account := z.nodes[e].account)
            && z.nodes[e].agent.value.fabricate == n.agent.value.fabricate
            && Booked(n.account, z.nodes[e].account, Flow.Actuation,
                      if target.Some? && target.value in w.nodes then HoldCost(n.account.energy) else 0.0)
  {
    DebitAtMost(w.nodes[e].account, Flow.Actuation, Finite(CLAMP_DRAIN * FIXED_DT));
  }

  /** Whether the hand is on a node that is there when the hold is paid for. */
  predicate Holding(w: World, c: Command) {
    exists t :: t in w.nodes && Reaches(w, c, t)
  }

  lemma ThreeCosts(a: Account, b: Account, c: Account, d: Account, drive: real, hold: real, build: real)
    requires Booked(a, b, Flow.Actuation, drive) && Booked(b, c, Flow.Actuation, hold)
    requires if build == 0.0 then d == c else Booked(c, d, Flow.Fabrication, build)
    ensures Spent(a, d, drive + hold, build)
  {
    forall f
      ensures Entry(d.ledger, f) == Entry(a.ledger, f) +
              if f.Actuation? then drive + hold else if f.Fabrication? then build else 0.0
    {
      assert Entry(b.ledger, f) == Entry(a.ledger, f) + if f == Flow.Actuation then drive else 0.0;
      assert Entry(c.ledger, f) == Entry(b.ledger, f) + if f == Flow.Actuation then hold else 0.0;
      assert build != 0.0 ==> Entry(d.ledger, f) == Entry(c.ledger, f) + if f == Flow.Fabrication then build else 0.0;
    }
  }

  /** Driven, gripped and strained, but nothing made yet. */
  function Strained(w: World, c: Command): (z: World)
    requires IsAgent(w, c.entity)
    ensures IsAgent(z, c.entity)
  {
    DrivenHand(w, c);
    Strain(Grip(Drive(w, c.entity, c.frequency), c.entity, c.clamp, c.nearest), c.entity)
  }

  lemma StrainedBooks(w: World, c: Command) returns (driven: Account)
    requires Good(w) && IsAgent(w, c.entity)
    ensures var n, m, hold := w.nodes[c.entity], Strained(w, c).nodes[c.entity],
                              if Holding(w, c) then HoldCost(Left(w, c)) else 0.0;
            && Booked(n.account, driven, Flow.Actuation, DriveCost(n, c.frequency))
            && Booked(driven, m.account, Flow.Actuation, hold)
            && m.mass == n.mass && m.agent.value.fabricate == n.agent.value.fabricate
  {
    var x := Drive(w, c.entity, c.frequency);
    DriveExactly(w, c.entity, c.frequency);
    DrivenHand(w, c);
    DriveStep(w, c.entity, c.frequency);
    assert NodeOk(x.nodes[c.entity]) && HoldOk(x, c.entity);
    var y := Grip(x, c.entity, c.clamp, c.nearest);
    GripLeaves(x, c.entity, c.clamp, c.nearest);
    StrainCosts(y, c.entity);
    driven := x.nodes[c.entity].account;
    HoldingIs(w, c, x, y);
  }

  lemma HoldingIs(w: World, c: Command, x: World, y: World)
    requires IsAgent(w, c.entity) && IsAgent(x, c.entity) && Keyed(x)
    requires ClampOk(GripOf(x, c.entity)) && HoldOk(x, c.entity)
    requires x.nodes.Keys == w.nodes.Keys && GripOf(x, c.entity) == GripOf(w, c.entity)
    requires y == Grip(x, c.entity, c.clamp, c.nearest)
    ensures y.nodes.Keys == w.nodes.Keys
    ensures var target := GripOf(y, c.entity).target;
            target.Some? && target.value in y.nodes <==> Holding(w, c)
  {
    var target := GripOf(y, c.entity).target;
    GripDecides(x, c.entity, c.clamp, c.nearest, if target.Some? then target.value else 0);
    if t :| t in w.nodes && Reaches(w, c, t) { GripDecides(x, c.entity, c.clamp, c.nearest, t); }
  }

  /**
   What a command costs its agent: the oscillator and the hold, as actuation, and what a structure
   takes, if there is enough left to make one; nothing else is booked.
   */
  lemma CommandBooks(w: World, c: Command)
    requires Good(w) && IsAgent(w, c.entity)
    ensures var n, z := w.nodes[c.entity], ApplyOne(w, c);
            var actuation := DriveCost(n, c.frequency) + if Holding(w, c) then HoldCost(Left(w, c)) else 0.0;
            var builds := CanBuild(n.(account := n.account.(energy := n.account.energy - actuation)), c.fabricate);
            && IsAgent(z, c.entity)
            && Spent(n.account, z.nodes[c.entity].account, actuation, if builds then 3.0 else 0.0)
            && z.nodes[c.entity].mass == n.mass - if builds then 0.5 else 0.0
  {
    var n, y := w.nodes[c.entity], Strained(w, c);
    var driven := StrainedBooks(w, c);
    var hold := if Holding(w, c) then HoldCost(Left(w, c)) else 0.0;
    var built := Fabricate(y, c.entity, c.fabricate);
    StrainedKeyed(w, c);
    FabricateExactly(y, c.entity, c.fabricate);
    ThreeCosts(n.account, driven, y.nodes[c.entity].account, built.nodes[c.entity].account,
               DriveCost(n, c.frequency), hold,
               if CanBuild(y.nodes[c.entity], c.fabricate) then 3.0 else 0.0);
  }

  lemma StrainedKeyed(w: World, c: Command)
    requires Good(w) && IsAgent(w, c.entity)
    ensures Keyed(Strained(w, c)) && ApplyOne(w, c) == Fabricate(Strained(w, c), c.entity, c.fabricate)
  {
    DrivenHand(w, c);
    DriveStep(w, c.entity, c.frequency);
    GripStep(Drive(w, c.entity, c.frequency), c.entity, c.clamp, c.nearest);
    StrainStep(Grip(Drive(w, c.entity, c.frequency), c.entity, c.clamp, c.nearest), c.entity);
  }

  // ---------------------------------------------------------------- cleanup

  /** The hold is in order: its target and its joint are there. */
  predicate HoldsOn(w: World, e: Entity) {
    && Held(w, e).Some? && Held(w, e).value in w.joints
    && GripOf(w, e).target.Some? && GripOf(w, e).target.value in w.nodes
  }

  /**
   Cleanup opens exactly the hands whose target or joint is gone, with a second and a half to cool,
   and removes exactly the joints that nobody holds on by; everything else is left as it was.
   */
  lemma CleanupExactly(w: World)
    requires Good(w)
    ensures var z := Cleanup(w);
            && z.nodes.Keys == w.nodes.Keys && z == w.(nodes := z.nodes, joints := z.joints)
            && (forall e | e in w.nodes :: SameBut(w.nodes[e], z.nodes[e], Held(w, e).Some? && !HoldsOn(w, e)))
            && (forall j :: j in z.joints <==>
                  j in w.joints && HoldsOn(w, w.joints[j].owner) && Held(w, w.joints[j].owner) == Some(j))
            && (forall j | j in z.joints :: z.joints[j] == w.joints[j])
  {
    var z := Cleanup(w);
    forall e | e in w.nodes ensures SameBut(w.nodes[e], z.nodes[e], Held(w, e).Some? && !HoldsOn(w, e)) {
      HandLeft(w, e);
    }
    forall j ensures j in z.joints <==>
                     j in w.joints && HoldsOn(w, w.joints[j].owner) && Held(w, w.joints[j].owner) == Some(j)
    {
      if j in w.joints { JointLeft(w, j); }
    }
  }

  predicate SameBut(n: Node, m: Node, letsGo: bool) {
    if letsGo then n.agent.Some? && m == n.(agent := Some(n.agent.value.(clamp := Clamp(None, None, 1.5)))) else m == n
  }

  lemma HandLeft(w: World, e: Entity)
    requires Good(w) && e in w.nodes
    ensures SameBut(w.nodes[e], Cleanup(w).nodes[e], Held(w, e).Some? && !HoldsOn(w, e))
  {
    assert NodeOk(w.nodes[e]) && HoldOk(w, e);
  }

  lemma JointLeft(w: World, j: Entity)
    requires Good(w) && j in w.joints
    ensures j in Cleanup(w).joints <==> HoldsOn(w, w.joints[j].owner) && Held(w, w.joints[j].owner) == Some(j)
  {
    var e := w.joints[j].owner;
    assert NodeOk(w.nodes[e]) && HoldOk(w, e);
    if j in Cleanup(w).joints { SparedAreHeld(w, j); }
    if HoldsOn(w, e) && Held(w, e) == Some(j) { SpareTheHeld(w, e); }
  }
}
