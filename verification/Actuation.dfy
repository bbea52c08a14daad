/**
 Actuators: oscillator drive, clamp and fabrication, and the cleanup of clamp joints.
 Commands take effect at once here; within one system nothing reads what they change.
 */
module Actuation {
  import opened Wrappers
  import opened Energy
  import opened World

  const CLAMP_DRAIN := 0.4
  const CLAMP_COOLDOWN := 1.5
  const FABRICATE_ENERGY_COST := 3.0
  const FABRICATE_MASS_COST := 0.5
  const FABRICATE_COOLDOWN := 3.0
  const OSC_RESPONSE := 4.0

  /** A sanitized action, with the neighbor that the nearest-neighbor query finds for its agent. */
  datatype Command = Command(entity: Entity, frequency: real, clamp: real, fabricate: real, nearest: Option<Entity>)

  function Abs(x: real): real {
    if x < 0.0 then -x else x
  }

  // ---------------------------------------------------------------- oscillator

  function Drive(w: World, e: Entity, frequency: real): World
    requires e in w.nodes
  {
    var n := w.nodes[e];
    if n.oscillator.None? then w
    else
      var cost := Finite(Abs(frequency - n.oscillator.value) * 0.005);
      if Affordable(n.account, Actuation, cost) then
        SetNode(w, e, n.(account := DebitedExact(n.account, Actuation, cost),
                         oscillator := Some(n.oscillator.value +
                             (frequency - n.oscillator.value) * (OSC_RESPONSE * FIXED_DT))))
      else w
  }

  // ---------------------------------------------------------------- clamp

  function SetClamp(w: World, e: Entity, c: Clamp): World
    requires IsAgent(w, e)
  {
    SetNode(w, e, w.nodes[e].(agent := Some(w.nodes[e].agent.value.(clamp := c))))
  }

  /** Let go: the joint is despawned and the clamp is empty. */
  function Unhook(w: World, e: Entity, cooldown: real): (z: World)
    requires IsAgent(w, e)
    ensures IsAgent(z, e)
  {
    var joint := w.nodes[e].agent.value.clamp.joint;
    SetClamp(w.(joints := if joint.Some? then w.joints - {joint.value} else w.joints), e, Clamp(None, None, cooldown))
  }

  function Cool(c: Clamp): Clamp {
    if c.cooldown > 0.0 then c.(cooldown := c.cooldown - FIXED_DT) else c
  }

  predicate Graspable(w: World, e: Entity, nearest: Option<Entity>) {
    nearest.Some? && nearest.value in w.nodes && nearest.value != e
  }

  function Engaged(w: World, e: Entity, target: Entity): World {
    w.(joints := w.joints[w.next := Joint(e, target)], makers := w.makers[w.next := e], next := w.next + 1)
  }

  function Grip(w: World, e: Entity, clamp: real, nearest: Option<Entity>): (z: World)
    requires IsAgent(w, e)
    ensures IsAgent(z, e)
  {
    var c := Cool(w.nodes[e].agent.value.clamp);
    if clamp > 0.5 then
      if c.cooldown <= 0.0 && c.target.None? && Graspable(w, e, nearest) then
        SetClamp(Engaged(w, e, nearest.value), e, c.(target := nearest, joint := Some(w.next)))
      else SetClamp(w, e, c)
    else if c.joint.Some? then Unhook(w, e, CLAMP_COOLDOWN)
    else SetClamp(w, e, c.(target := None))
  }

  /** Holding on costs energy, and ends when the target or the energy is gone. */
  function Strain(w: World, e: Entity): (z: World)
    requires IsAgent(w, e)
    ensures IsAgent(z, e)
  {
    var n := w.nodes[e];
    var target := n.agent.value.clamp.target;
    if target.None? then w
    else if target.value !in w.nodes then Unhook(w, e, CLAMP_COOLDOWN)
    else
      var paid := n.(account := DebitedAvailable(n.account, Actuation, Finite(CLAMP_DRAIN * FIXED_DT)));
      if paid.account.energy <= 0.0 then Unhook(SetNode(w, e, paid), e, CLAMP_COOLDOWN) else SetNode(w, e, paid)
  }

  // ---------------------------------------------------------------- fabrication

  function Structure(x: real, y: real): Node {
    Node(Account(FABRICATE_ENERGY_COST, BLANK), FABRICATE_ENERGY_COST, FABRICATE_MASS_COST, 12.0, 12.0, 0.0,
         0.2, {Shelter}, x, y, None, false, None, None)
  }

  function Waited(a: Agent): real {
    if a.fabricate > 0.0 then a.fabricate - FIXED_DT else a.fabricate
  }

  predicate Fabricates(n: Node, trigger: real)
    requires n.agent.Some?
  {
    && trigger > 0.5 && Waited(n.agent.value) <= 0.0
    && n.account.energy >= FABRICATE_ENERGY_COST && n.mass >= FABRICATE_MASS_COST
  }

  /** An agent that has just paid for a structure. */
  function Builder(n: Node): Node
    requires n.agent.Some?
  {
    n.(account := DebitedExact(n.account, Fabrication, Finite(FABRICATE_ENERGY_COST)),
       mass := n.mass - FABRICATE_MASS_COST,
       agent := Some(n.agent.value.(fabricate := FABRICATE_COOLDOWN)))
  }

  function Fabricate(w: World, e: Entity, trigger: real): World
    requires IsAgent(w, e)
  {
    var n := w.nodes[e];
    if Fabricates(n, trigger) then Spawn(SetNode(w, e, Builder(n)), Structure(n.x + 1.0, n.y))
    else SetNode(w, e, n.(agent := Some(n.agent.value.(fabricate := Waited(n.agent.value)))))
  }

  function ApplyOne(w: World, c: Command): World {
    if c.entity !in w.nodes then w
    else
      var driven := Drive(w, c.entity, c.frequency);
      if !IsAgent(driven, c.entity) then driven
      else
        var gripped := Grip(driven, c.entity, c.clamp, c.nearest);
        Fabricate(Strain(gripped, c.entity), c.entity, c.fabricate)
  }

  function ApplyAll(w: World, cs: seq<Command>): World {
    if cs == [] then w else ApplyOne(ApplyAll(w, cs[..|cs| - 1]), cs[|cs| - 1])
  }

  // ---------------------------------------------------------------- cleanup

  /** A joint whose owner is gone, or no longer holds it. */
  predicate Orphaned(w: World, j: Entity) {
    j in w.joints && Held(w, w.joints[j].owner) != Some(j)
  }

  /** A clamp whose target or joint is gone. */
  predicate Dangling(w: World, e: Entity) {
    IsAgent(w, e) &&
    var c := w.nodes[e].agent.value.clamp;
    (c.target.Some? && c.target.value !in w.nodes) || (c.joint.Some? && c.joint.value !in w.joints)
  }

  function Doomed(w: World): set<Entity> {
    (set j | j in w.joints && Orphaned(w, j)) +
    (set e | e in w.nodes && Dangling(w, e) && Held(w, e).Some? :: Held(w, e).value)
  }

  function Opened(n: Node): Node
    requires n.agent.Some?
  {
    n.(agent := Some(n.agent.value.(clamp := Clamp(None, None, CLAMP_COOLDOWN))))
  }

  function Cleanup(w: World): World {
    w.(joints := w.joints - Doomed(w),
       nodes := map e | e in w.nodes :: if Dangling(w, e) then Opened(w.nodes[e]) else w.nodes[e])
  }

  // ---------------------------------------------------------------- what they keep

  lemma CleanupGrips(w: World, e: Entity)
    requires e in w.nodes
    ensures GripOf(Cleanup(w), e) == if Dangling(w, e) then Clamp(None, None, CLAMP_COOLDOWN) else GripOf(w, e)
    ensures IsAgent(Cleanup(w), e) == IsAgent(w, e)
    ensures Held(Cleanup(w), e) == if Dangling(w, e) then None else Held(w, e)
  {
  }

  /** A held joint survives exactly when its holder is not dangling. */
  lemma SpareTheHeld(w: World, e: Entity)
    requires Good(w) && e in w.nodes && Held(w, e).Some? && !Dangling(w, e)
    ensures Held(w, e).value in Cleanup(w).joints
  {
    var j := Held(w, e).value;
    assert HoldOk(w, e);
    if j in Doomed(w) {
      assert !Orphaned(w, j);
      var f :| f in w.nodes && Dangling(w, f) && Held(w, f) == Some(j);
      NoSharedJoints(w, e, f);
    }
  }

  lemma SparedAreHeld(w: World, j: Entity)
    requires Good(w) && j in Cleanup(w).joints
    ensures Held(w, w.joints[j].owner) == Some(j) && !Dangling(w, w.joints[j].owner)
    ensures Cleanup(w).joints[j] == w.joints[j]
  {
    assert !Orphaned(w, j);
  }

  lemma CleanupLinked(w: World)
    requires Good(w)
    ensures JointsExact(Cleanup(w))
  {
    var z := Cleanup(w);
    forall e | e in w.nodes ensures HoldOk(z, e) && Held(z, e) == if Dangling(w, e) then None else Held(w, e) {
      CleanupGrips(w, e);
      assert HoldOk(w, e);
    }
    forall j | j in z.joints ensures Held(z, z.joints[j].owner) == Some(j) && z.joints[j] == w.joints[j] {
      SparedAreHeld(w, j);
    }
    forall e | e in z.nodes && Held(z, e).Some? ensures Held(z, e).value in z.joints { SpareTheHeld(w, e); }
  }

  /**
   Cleanup makes the joint graph exact: whatever was orphaned, dangling or half gone, live
   joints and held clamps correspond one to one afterwards, with both ends alive.
   */
  lemma CleanupExact(w: World)
    requires Good(w)
    ensures Step(w, Cleanup(w)) && JointsExact(Cleanup(w))
  {
    var z := Cleanup(w);
    SumAgree(w.nodes, z.nodes, w.next);
    forall e | e in z.nodes ensures NodeOk(z.nodes[e]) { assert NodeOk(w.nodes[e]); }
    CleanupLinked(w);
  }

  lemma DriveStep(w: World, e: Entity, frequency: real)
    requires Good(w) && e in w.nodes
    ensures Step(w, Drive(w, e, frequency)) && IsAgent(Drive(w, e, frequency), e) == IsAgent(w, e)
    ensures Drive(w, e, frequency).fragments == w.fragments
  {
    var n := w.nodes[e];
    StepRefl(w);
    if n.oscillator.Some? {
      var cost := Finite(Abs(frequency - n.oscillator.value) * 0.005);
      if Affordable(n.account, Actuation, cost) {
        var m := Drive(w, e, frequency).nodes[e];
        PostShifts(w, e, Actuation, ValidAmount(cost), m);
        SetShape(w, e, m);
        ShapeStep(w, SetNode(w, e, m));
      }
    }
  }

  lemma ClampShifts(w: World, e: Entity, c: Clamp)
    requires Keyed(w) && NodesOk(w) && IsAgent(w, e) && ClampOk(c)
    ensures Conserves(w, SetClamp(w, e, c)) && Lawful(w, SetClamp(w, e, c))
    ensures Keyed(SetClamp(w, e, c)) && NodesOk(SetClamp(w, e, c)) && IsAgent(SetClamp(w, e, c), e)
  {
    var n := SetClamp(w, e, c).nodes[e];
    assert NodeOk(w.nodes[e]);
    SetShifts(w, e, n);
    SetKeepsNodes(w, e, n);
    SetLawful(w, e, n);
  }

  lemma UnhookStep(w: World, e: Entity, cooldown: real)
    requires Good(w) && IsAgent(w, e)
    ensures Step(w, Unhook(w, e, cooldown)) && IsAgent(Unhook(w, e, cooldown), e)
    ensures Unhook(w, e, cooldown).fragments == w.fragments
  {
    var z := Unhook(w, e, cooldown);
    var x := w.(joints := z.joints);
    assert Keyed(x) && Conserves(w, x) && Lawful(w, x);
    ClampShifts(x, e, Clamp(None, None, cooldown));
    LettingGoLinks(w, z, e);
    if JointsExact(w) { LettingGoExact(w, z, e); }
    LawfulCompose(w, x, z);
  }

  lemma SetClampStep(w: World, e: Entity, c: Clamp)
    requires Good(w) && IsAgent(w, e) && ClampOk(c)
    requires c.target == w.nodes[e].agent.value.clamp.target && c.joint == w.nodes[e].agent.value.clamp.joint
    ensures Step(w, SetClamp(w, e, c)) && IsAgent(SetClamp(w, e, c), e)
    ensures SetClamp(w, e, c).fragments == w.fragments
  {
    ClampShifts(w, e, c);
    SameHolds(w, SetClamp(w, e, c));
  }

  /** Only cooldowns changed. */
  lemma SameHolds(w: World, z: World)
    requires w.nodes.Keys == z.nodes.Keys && w.next == z.next && z.joints == w.joints && z.makers == w.makers
    requires forall e | e in w.nodes ::
               IsAgent(z, e) == IsAgent(w, e)
               && GripOf(z, e).joint == GripOf(w, e).joint && GripOf(z, e).target == GripOf(w, e).target
    ensures JointsLinked(w) ==> JointsLinked(z)
    ensures JointsExact(w) ==> JointsExact(z)
  {
    forall e | e in z.nodes ensures JointsLinked(w) ==> HoldOk(z, e) { assert JointsLinked(w) ==> HoldOk(w, e); }
  }

  lemma FreshJoint(w: World, e: Entity, target: Entity)
    requires Good(w)
    ensures var x := Engaged(w, e, target);
            Keyed(x) && NodesOk(x) && Conserves(w, x) && Lawful(w, x)
  {
    assert w.next !in w.nodes;
    assert Sum(w.nodes, w.next + 1) == Sum(w.nodes, w.next);
  }

  /** Engaging: a fresh joint between the agent and a node that is there. */
  lemma EngageStep(w: World, e: Entity, target: Entity, cooldown: real)
    requires Good(w) && IsAgent(w, e) && target in w.nodes && cooldown <= 0.0
    requires w.nodes[e].agent.value.clamp.joint.None?
    ensures var z := SetClamp(Engaged(w, e, target), e, Clamp(Some(target), Some(w.next), cooldown));
            Step(w, z) && IsAgent(z, e) && z.fragments == w.fragments
  {
    var x := Engaged(w, e, target);
    var z := SetClamp(x, e, Clamp(Some(target), Some(w.next), cooldown));
    FreshJoint(w, e, target);
    ClampShifts(x, e, Clamp(Some(target), Some(w.next), cooldown));
    TakingHoldLinks(w, z, e, target);
    if JointsExact(w) { TakingHoldExact(w, z, e, target); }
    LawfulCompose(w, x, z);
  }

  lemma GripStep(w: World, e: Entity, clamp: real, nearest: Option<Entity>)
    requires Good(w) && IsAgent(w, e)
    ensures var z := Grip(w, e, clamp, nearest);
            Step(w, z) && IsAgent(z, e) && z.fragments == w.fragments
  {
    var c := Cool(w.nodes[e].agent.value.clamp);
    assert NodeOk(w.nodes[e]);
    if clamp > 0.5 {
      if c.cooldown <= 0.0 && c.target.None? && Graspable(w, e, nearest) {
        EngageStep(w, e, nearest.value, c.cooldown);
      } else {
        SetClampStep(w, e, c);
      }
    } else if c.joint.Some? {
      UnhookStep(w, e, CLAMP_COOLDOWN);
    } else {
      SetClampStep(w, e, c);
    }
  }

  lemma StrainStep(w: World, e: Entity)
    requires Good(w) && IsAgent(w, e)
    ensures Step(w, Strain(w, e)) && IsAgent(Strain(w, e), e) && Strain(w, e).fragments == w.fragments
  {
    var n := w.nodes[e];
    var target := n.agent.value.clamp.target;
    StepRefl(w);
    if target.Some? {
      if target.value !in w.nodes {
        UnhookStep(w, e, CLAMP_COOLDOWN);
      } else {
        var cost := Finite(CLAMP_DRAIN * FIXED_DT);
        var paid := n.(account := DebitedAvailable(n.account, Actuation, cost));
        var x := SetNode(w, e, paid);
        PostShifts(w, e, Actuation, AvailableAmount(n.account, Actuation, cost), paid);
        SetShape(w, e, paid);
        ShapeStep(w, x);
        if paid.account.energy <= 0.0 {
          UnhookStep(x, e, CLAMP_COOLDOWN);
          StepCompose(w, x, Strain(w, e));
        }
      }
    }
  }

  lemma BuilderOk(n: Node, trigger: real)
    requires NodeOk(n) && n.agent.Some? && Fabricates(n, trigger)
    ensures NodeOk(Builder(n)) && SameGrip(Builder(n), n) && Builder(n).origin == n.origin
    ensures Newborn(Structure(n.x + 1.0, n.y)) && FairGift(n, Builder(n), Structure(n.x + 1.0, n.y))
  {
  }

  lemma FabricateStep(w: World, e: Entity, trigger: real)
    requires Good(w) && IsAgent(w, e)
    ensures Step(w, Fabricate(w, e, trigger)) && Fabricate(w, e, trigger).fragments == w.fragments
  {
    var n := w.nodes[e];
    assert NodeOk(n);
    if Fabricates(n, trigger) {
      BuilderOk(n, trigger);
      EndowStep(w, e, Builder(n), Structure(n.x + 1.0, n.y));
    } else {
      SetStep(w, e, Fabricate(w, e, trigger).nodes[e]);
    }
  }

  lemma ApplyStep(w: World, c: Command)
    requires Good(w)
    ensures Step(w, ApplyOne(w, c)) && ApplyOne(w, c).fragments == w.fragments
  {
    StepRefl(w);
    if c.entity in w.nodes {
      var driven := Drive(w, c.entity, c.frequency);
      DriveStep(w, c.entity, c.frequency);
      if IsAgent(driven, c.entity) {
        var gripped := Grip(driven, c.entity, c.clamp, c.nearest);
        GripStep(driven, c.entity, c.clamp, c.nearest);
        StrainStep(gripped, c.entity);
        var strained := Strain(gripped, c.entity);
        FabricateStep(strained, c.entity, c.fabricate);
        StepCompose(w, driven, gripped);
        StepCompose(w, gripped, strained);
        StepCompose(w, strained, ApplyOne(w, c));
      }
    }
  }

  lemma {:induction false} ActuatorsStep(w: World, cs: seq<Command>)
    requires Good(w)
    ensures Step(w, ApplyAll(w, cs)) && ApplyAll(w, cs).fragments == w.fragments
  {
    if cs == [] {
      StepRefl(w);
    } else {
      ActuatorsStep(w, cs[..|cs| - 1]);
      var x := ApplyAll(w, cs[..|cs| - 1]);
      ApplyStep(x, cs[|cs| - 1]);
      StepCompose(w, x, ApplyAll(w, cs));
    }
  }
}
