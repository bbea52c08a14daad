/**
 The state of the simulation between two systems, and the totals that the whole tick
 conserves. Entities are numbered in the order of their creation and never reused, so
 totals are sums over the numbers below `next`.
 */
module World {
  import opened Wrappers
  import opened Energy

  type Entity = nat

  const FIXED_DT := 1.0 / 60.0

  datatype Tag =
    | EnergyConvertible | ClampCapable | Shelter | ThermalVent | VolatileTrap | Magnetic | AgentTag | OscillatorTag

  datatype Chunk = Chunk(x: int, y: int)

  datatype Clamp = Clamp(target: Option<Entity>, joint: Option<Entity>, cooldown: real)

  const UNCLAMPED := Clamp(None, None, 0.0)

  /** The components that only a controllable agent carries. */
  datatype Agent = Agent(clamp: Clamp, fabricate: real, surplus: real, birthCooldown: real, generation: nat)

  /** `birth` is bookkeeping of the model: the energy the node was created with. */
  datatype Node = Node(
    account: Account, birth: real, mass: real, structure: real, yieldAt: real, stress: real,
    conductivity: real, tags: set<Tag>, x: real, y: real, origin: Option<Chunk>, dead: bool,
    oscillator: Option<real>, agent: Option<Agent>)

  datatype Joint = Joint(owner: Entity, target: Entity)

  datatype FragmentEntry = FragmentEntry(victim: Entity, killer: Option<Entity>, share: real)

  datatype Outcome = Outcome(entity: Entity, generation: nat, ledger: Ledger, step: nat)

  datatype Recorded = Recorded(generation: nat, ledger: Ledger)

  /** Ledger entries of many nodes; `transit` is what they passed on beyond what they took from others. */
  datatype Flows = Flows(vented: real, dissipated: real, actuation: real, transit: real)

  const NO_FLOWS := Flows(0.0, 0.0, 0.0, 0.0)

  /** What chunk streaming brought in and took away. */
  datatype Streamed = Streamed(energyIn: real, energyOut: real, massIn: real, massOut: real)

  /** Bookkeeping of the model: the entries of nodes that were despawned, and the number of fragmentations so far. */
  datatype Books = Books(flows: Flows, streamed: Streamed, splits: nat)

  const NO_BOOKS := Books(NO_FLOWS, Streamed(0.0, 0.0, 0.0, 0.0), 0)

  /**
   `makers`, `ever` and `books` are bookkeeping of the model: which agent made each clamp joint
   there ever was, and every agent that ended some tick alive.
   */
  datatype World = World(
    nodes: map<Entity, Node>, joints: map<Entity, Joint>, next: Entity,
    fragments: seq<FragmentEntry>, deaths: seq<Entity>, step: nat, chunks: set<Chunk>,
    active: map<Entity, Recorded>, completed: seq<Outcome>,
    makers: map<Entity, Entity>, ever: set<Entity>, books: Books)

  const EMPTY_WORLD := World(map[], map[], 0, [], [], 0, {}, map[], [], map[], {}, NO_BOOKS)

  function SetNode(w: World, e: Entity, n: Node): World {
    w.(nodes := w.nodes[e := n])
  }

  function Spawn(w: World, n: Node): World {
    w.(nodes := w.nodes[w.next := n], next := w.next + 1)
  }

  predicate IsAgent(w: World, e: Entity) {
    e in w.nodes && w.nodes[e].agent.Some?
  }

  // ---------------------------------------------------------------- totals

  const HEAVY := 0.05

  datatype Totals = Totals(energy: real, mass: real, heavy: int, flows: Flows)

  const NOTHING := Totals(0.0, 0.0, 0, NO_FLOWS)

  function AddFlows(a: Flows, b: Flows): Flows {
    Flows(a.vented + b.vented, a.dissipated + b.dissipated, a.actuation + b.actuation, a.transit + b.transit)
  }

  function LessFlows(a: Flows, b: Flows): Flows {
    Flows(a.vented - b.vented, a.dissipated - b.dissipated, a.actuation - b.actuation, a.transit - b.transit)
  }

  function Add(a: Totals, b: Totals): Totals {
    Totals(a.energy + b.energy, a.mass + b.mass, a.heavy + b.heavy, AddFlows(a.flows, b.flows))
  }

  function Less(a: Totals, b: Totals): Totals {
    Totals(a.energy - b.energy, a.mass - b.mass, a.heavy - b.heavy, LessFlows(a.flows, b.flows))
  }

  function FlowsOf(l: Ledger): Flows {
    Flows(l.income.vented, l.outlay.dissipated, l.outlay.actuation,
          l.outlay.transferred - l.income.harvested - l.income.consumed)
  }

  function Weigh(n: Node): Totals {
    Totals(n.account.energy, n.mass, if n.mass >= HEAVY then 1 else 0, FlowsOf(n.account.ledger))
  }

  /** The nodes numbered below `n`, in total. */
  function Sum(nodes: map<Entity, Node>, n: nat): Totals {
    if n == 0 then NOTHING
    else if n - 1 in nodes then Add(Sum(nodes, n - 1), Weigh(nodes[n - 1]))
    else Sum(nodes, n - 1)
  }

  ghost predicate AgreeAt(a: map<Entity, Node>, b: map<Entity, Node>, e: Entity) {
    (e in a <==> e in b) && (e in a ==> Weigh(a[e]) == Weigh(b[e]))
  }

  lemma {:induction false} SumAgree(a: map<Entity, Node>, b: map<Entity, Node>, n: nat)
    requires forall e: Entity | e < n :: AgreeAt(a, b, e)
    ensures Sum(a, n) == Sum(b, n)
  {
    if n > 0 {
      assert AgreeAt(a, b, n - 1);
      SumAgree(a, b, n - 1);
    }
  }

  /** Taking one node out takes exactly its own weight out of the sum. */
  lemma {:induction false} SumWithout(a: map<Entity, Node>, b: map<Entity, Node>, e: Entity, n: nat)
    requires e < n && e in a && e !in b
    requires forall x: Entity | x < n && x != e :: AgreeAt(a, b, x)
    ensures Sum(b, n) == Less(Sum(a, n), Weigh(a[e]))
  {
    if e == n - 1 {
      SumAgree(a, b, n - 1);
    } else {
      assert AgreeAt(a, b, n - 1);
      SumWithout(a, b, e, n - 1);
    }
  }

  /** Changing one node changes the sum by exactly that node. */
  lemma SumChange(a: map<Entity, Node>, b: map<Entity, Node>, e: Entity, n: nat)
    requires e < n && e in a && e in b
    requires forall x: Entity | x < n && x != e :: AgreeAt(a, b, x)
    ensures Sum(b, n) == Add(Less(Sum(a, n), Weigh(a[e])), Weigh(b[e]))
  {
    var rest := a - {e};
    forall x: Entity | x < n && x != e ensures AgreeAt(b, rest, x) { assert AgreeAt(a, b, x); }
    SumWithout(a, rest, e, n);
    SumWithout(b, rest, e, n);
  }

  /** Energy net of what the environment and actions account for. */
  function NetOf(energy: real, f: Flows): real {
    energy - f.vented + f.dissipated + f.actuation
  }

  /** What the tick conserves: energy net of its sources and sinks, energy on loan, and mass. */
  datatype Stock = Stock(energy: real, transit: real, mass: real)

  function StockFrom(t: Totals, b: Books): Stock {
    Stock(NetOf(t.energy, t.flows) + NetOf(b.streamed.energyOut - b.streamed.energyIn, b.flows),
          t.flows.transit + b.flows.transit,
          t.mass - b.streamed.massIn + b.streamed.massOut)
  }

  function StockOf(w: World): Stock {
    StockFrom(Sum(w.nodes, w.next), w.books)
  }

  /** Fragmentations so far, plus how many more the mass could still pay for. */
  function PotentialFrom(t: Totals, b: Books): real {
    b.splits as real + (t.mass - b.streamed.massIn) * 20.0 - t.heavy as real
  }

  function Potential(w: World): real {
    PotentialFrom(Sum(w.nodes, w.next), w.books)
  }

  /** `amount` has entered reserves without having left others yet; nothing else has changed. */
  ghost predicate Shifts(w: World, z: World, amount: real) {
    && StockOf(z) == Stock(StockOf(w).energy + amount, StockOf(w).transit - amount, StockOf(w).mass)
    && Potential(z) <= Potential(w)
  }

  ghost predicate Conserves(w: World, z: World) {
    Shifts(w, z, 0.0)
  }

  // ---------------------------------------------------------------- invariants

  ghost predicate Keyed(w: World) {
    && (forall e | e in w.nodes :: e < w.next)
    && (forall j | j in w.joints :: j < w.next && j !in w.nodes)
  }

  predicate ClampOk(c: Clamp) {
    (c.target.Some? <==> c.joint.Some?) && (c.target.Some? ==> c.cooldown <= 0.0)
  }

  predicate NodeOk(n: Node) {
    && n.mass >= 0.0
    && n.account.energy == n.birth + Net(n.account.ledger)
    && (n.agent.Some? ==> AgentTag in n.tags)
    && (n.agent.Some? ==> !n.dead && n.origin.None? && ClampOk(n.agent.value.clamp))
  }

  ghost predicate NodesOk(w: World) {
    forall e {:trigger NodeOk(w.nodes[e])} | e in w.nodes :: NodeOk(w.nodes[e])
  }

  function GripOf(w: World, e: Entity): Clamp {
    if IsAgent(w, e) then w.nodes[e].agent.value.clamp else UNCLAMPED
  }

  function Held(w: World, e: Entity): Option<Entity> {
    GripOf(w, e).joint
  }

  /** A held joint was made by its holder; if it is live, it is the holder's grip on the target. */
  predicate HoldOk(w: World, e: Entity) {
    Held(w, e).Some? ==>
      var j := Held(w, e).value;
      && j in w.makers && w.makers[j] == e && j < w.next
      && (j in w.joints ==> w.joints[j].owner == e && GripOf(w, e).target == Some(w.joints[j].target))
  }

  /** Every live joint has live ends, and every hold is its holder's own. */
  ghost predicate JointsLinked(w: World) {
    && (forall j | j in w.joints :: w.joints[j].owner in w.nodes && w.joints[j].target in w.nodes)
    && (forall e {:trigger HoldOk(w, e)} | e in w.nodes :: HoldOk(w, e))
  }

  /** No two agents hold the same joint. */
  lemma NoSharedJoints(w: World, e: Entity, f: Entity)
    requires JointsLinked(w) && e in w.nodes && f in w.nodes && Held(w, e).Some? && Held(w, e) == Held(w, f)
    ensures e == f
  {
    assert HoldOk(w, e) && HoldOk(w, f);
  }

  /** Live joints and held clamps correspond one to one. */
  ghost predicate JointsExact(w: World) {
    && JointsLinked(w)
    && (forall j | j in w.joints :: Held(w, w.joints[j].owner) == Some(j))
    && (forall e | e in w.nodes && Held(w, e).Some? :: Held(w, e).value in w.joints)
  }

  const MIN_DAUGHTER_MASS := 0.05
  const MIN_DAUGHTER_STRUCTURE := 0.5

  predicate CanFragment(n: Node) {
    n.mass >= MIN_DAUGHTER_MASS * 2.0 && n.yieldAt >= MIN_DAUGHTER_STRUCTURE * 2.0
  }

  predicate Queued(queue: seq<FragmentEntry>, e: Entity) {
    exists i | 0 <= i < |queue| :: queue[i].victim == e
  }

  /** The node is there, has energy to divide, and can be divided. */
  predicate Divisible(w: World, v: Entity) {
    v in w.nodes && w.nodes[v].account.energy >= 0.0 && CanFragment(w.nodes[v])
  }

  /** Every queued victim is divisible, and queued once. */
  ghost predicate QueueOk(w: World) {
    && (forall i | 0 <= i < |w.fragments| :: Divisible(w, w.fragments[i].victim))
    && (forall i, j | 0 <= i < j < |w.fragments| :: w.fragments[i].victim != w.fragments[j].victim)
  }

  // ---------------------------------------------------------------- frames

  /** Nothing but accounts, structure, stress, oscillators and positions differs. */
  predicate SameMake(n: Node, m: Node) {
    && n.birth == m.birth && n.mass == m.mass && n.yieldAt == m.yieldAt && n.tags == m.tags
    && n.origin == m.origin && n.dead == m.dead && n.agent == m.agent
  }

  /** The transition touches no identity: same nodes, agents, joints, chunks and records. */
  ghost predicate SameShape(w: World, z: World) {
    && z.nodes.Keys == w.nodes.Keys
    && (forall e | e in w.nodes :: SameMake(w.nodes[e], z.nodes[e]))
    && z.joints == w.joints && z.makers == w.makers && z.next == w.next && z.step == w.step && z.chunks == w.chunks
    && z.active == w.active && z.completed == w.completed && z.ever == w.ever
    && z.books == w.books
  }

  /** No reserve that was not negative becomes negative. */
  ghost predicate Gentle(w: World, z: World) {
    forall e | e in w.nodes && e in z.nodes && w.nodes[e].account.energy >= 0.0 :: z.nodes[e].account.energy >= 0.0
  }

  /** The books stay true, and nothing is invested. */
  predicate SameBalance(a: Account, b: Account) {
    b.energy - Net(b.ledger) == a.energy - Net(a.ledger) && b.ledger.invested == a.ledger.invested
  }

  ghost predicate BooksTrue(w: World, z: World) {
    forall e | e in w.nodes && e in z.nodes :: SameBalance(w.nodes[e].account, z.nodes[e].account)
  }

  lemma ShapeKeepsNodes(w: World, z: World)
    requires SameShape(w, z) && BooksTrue(w, z) && NodesOk(w)
    ensures NodesOk(z)
  {
    forall e | e in z.nodes ensures NodeOk(z.nodes[e]) { assert e in w.nodes; assert NodeOk(w.nodes[e]); }
  }

  lemma ShapeKeepsKeys(w: World, z: World)
    requires SameShape(w, z) && Keyed(w)
    ensures Keyed(z)
  {
  }

  lemma ShapeKeepsLinks(w: World, z: World)
    requires SameShape(w, z) && JointsLinked(w)
    ensures JointsLinked(z)
  {
    forall e | e in z.nodes ensures HoldOk(z, e) { assert HoldOk(w, e) && z.nodes[e].agent == w.nodes[e].agent; }
  }

  lemma ShapeKeepsExact(w: World, z: World)
    requires SameShape(w, z) && JointsExact(w)
    ensures JointsExact(z)
  {
    ShapeKeepsLinks(w, z);
    forall e | e in w.nodes ensures Held(z, e) == Held(w, e) { assert z.nodes[e].agent == w.nodes[e].agent; }
  }

  lemma ShapeKeepsQueue(w: World, z: World)
    requires SameShape(w, z) && Gentle(w, z) && z.fragments == w.fragments && QueueOk(w)
    ensures QueueOk(z)
  {
  }

  function Own(n: Node): real {
    NetOf(n.account.energy, FlowsOf(n.account.ledger))
  }

  function Transit(n: Node): real {
    FlowsOf(n.account.ledger).transit
  }

  lemma SetShifts(w: World, e: Entity, n: Node)
    requires Keyed(w) && e in w.nodes && n.mass == w.nodes[e].mass
    requires Own(n) - Own(w.nodes[e]) == Transit(w.nodes[e]) - Transit(n)
    ensures Shifts(w, SetNode(w, e, n), Own(n) - Own(w.nodes[e]))
  {
    SumChange(w.nodes, SetNode(w, e, n).nodes, e, w.next);
  }

  /** Posting to one account: the effect on the world's totals is the amount on loan. */
  lemma PostShifts(w: World, e: Entity, flow: Flow, amount: real, n: Node)
    requires Keyed(w) && e in w.nodes
    requires SameMake(w.nodes[e], n) && n.account == Posted(w.nodes[e].account, flow, amount)
    requires !flow.Fabrication? && !flow.Offspring?
    ensures Shifts(w, SetNode(w, e, n),
                   if flow.Harvested? || flow.Consumed? then amount else if flow.Transferred? then -amount else 0.0)
  {
    SetShifts(w, e, n);
  }

  lemma SetShape(w: World, e: Entity, n: Node)
    requires e in w.nodes && SameMake(w.nodes[e], n)
    ensures SameShape(w, SetNode(w, e, n))
    ensures SameBalance(w.nodes[e].account, n.account) ==> BooksTrue(w, SetNode(w, e, n))
    ensures (w.nodes[e].account.energy >= 0.0 ==> n.account.energy >= 0.0) ==> Gentle(w, SetNode(w, e, n))
  {
  }

  // ---------------------------------------------------------------- structural steps

  /** Entities come only from fresh numbers; nobody becomes an agent again, or changes its chunk. */
  ghost predicate Lawful(w: World, z: World) {
    && w.next <= z.next
    && (forall e | e in z.nodes && e < w.next :: e in w.nodes && (IsAgent(z, e) ==> IsAgent(w, e)))
    && (forall e | e in z.nodes && z.nodes[e].origin.Some? ::
          e in w.nodes && e < w.next && w.nodes[e].origin == z.nodes[e].origin)
    && z.step == w.step && z.chunks == w.chunks
    && z.active == w.active && z.completed == w.completed && z.ever == w.ever
  }

  lemma ShapeLawful(w: World, z: World)
    requires SameShape(w, z) && Keyed(w)
    ensures Lawful(w, z)
  {
  }

  lemma LawfulCompose(w: World, x: World, z: World)
    requires Lawful(w, x) && Lawful(x, z)
    ensures Lawful(w, z)
  {
  }

  ghost predicate Good(w: World) {
    Keyed(w) && NodesOk(w) && JointsLinked(w)
  }

  ghost predicate Tidy(w: World, z: World) {
    && Good(z) && Lawful(w, z)
    && (JointsExact(w) ==> JointsExact(z))
  }

  /** A step that keeps the world good, conserves its stock, and keeps an exact joint graph exact. */
  ghost predicate Step(w: World, z: World) {
    Conserves(w, z) && Tidy(w, z)
  }

  lemma StepCompose(w: World, x: World, z: World)
    requires Step(w, x) && Step(x, z)
    ensures Step(w, z)
  {
    LawfulCompose(w, x, z);
  }

  lemma StepRefl(w: World)
    requires Good(w)
    ensures Step(w, w)
  {
  }

  lemma ShapeStep(w: World, z: World)
    requires Good(w) && SameShape(w, z) && BooksTrue(w, z) && Conserves(w, z)
    ensures Step(w, z)
  {
    ShapeKeepsNodes(w, z);
    ShapeKeepsKeys(w, z);
    ShapeKeepsLinks(w, z);
    ShapeLawful(w, z);
    if JointsExact(w) { ShapeKeepsExact(w, z); }
  }

  /** The same hands hold the same joints; new nodes, if any, hold nothing. */
  lemma SameGrips(w: World, z: World)
    requires Keyed(w) && Keyed(z)
    requires w.nodes.Keys <= z.nodes.Keys && w.next <= z.next && z.joints == w.joints && z.makers == w.makers
    requires forall e | e in w.nodes :: GripOf(z, e) == GripOf(w, e)
    requires forall e | e in z.nodes && e !in w.nodes :: GripOf(z, e) == UNCLAMPED
    ensures JointsLinked(w) ==> JointsLinked(z)
    ensures JointsExact(w) ==> JointsExact(z)
  {
    forall e | e in z.nodes ensures JointsLinked(w) ==> HoldOk(z, e) {
      assert e in w.nodes ==> (JointsLinked(w) ==> HoldOk(w, e));
    }
  }

  /** One hand opens, and the joint it held is gone. */
  ghost predicate LetsGo(w: World, z: World, e: Entity) {
    && e in w.nodes
    && w.nodes.Keys == z.nodes.Keys && w.next == z.next && z.makers == w.makers
    && (z.joints == if Held(w, e).Some? then w.joints - {Held(w, e).value} else w.joints)
    && GripOf(z, e).joint == None
    && (forall f | f in w.nodes && f != e :: GripOf(z, f) == GripOf(w, f))
  }

  lemma LettingGoLinks(w: World, z: World, e: Entity)
    requires LetsGo(w, z, e) && JointsLinked(w)
    ensures JointsLinked(z)
  {
    forall f | f in z.nodes ensures HoldOk(z, f) { assert HoldOk(w, f); }
  }

  lemma LettingGoExact(w: World, z: World, e: Entity)
    requires LetsGo(w, z, e) && JointsExact(w)
    ensures JointsExact(z)
  {
    LettingGoLinks(w, z, e);
    forall f | f in z.nodes && Held(z, f).Some? ensures Held(z, f).value in z.joints {
      assert f != e && Held(w, f) == Held(z, f);
      if Held(w, e) == Held(w, f) { NoSharedJoints(w, e, f); }
    }
  }

  /** One open hand takes a fresh joint to a node that is there. */
  ghost predicate TakesHold(w: World, z: World, e: Entity, target: Entity) {
    && e in w.nodes && target in w.nodes
    && w.nodes.Keys == z.nodes.Keys && z.next == w.next + 1
    && z.joints == w.joints[w.next := Joint(e, target)] && z.makers == w.makers[w.next := e]
    && Held(w, e).None? && IsAgent(z, e)
    && GripOf(z, e).joint == Some(w.next) && GripOf(z, e).target == Some(target)
    && (forall f | f in w.nodes && f != e :: GripOf(z, f) == GripOf(w, f))
  }

  lemma TakingHoldLinks(w: World, z: World, e: Entity, target: Entity)
    requires Keyed(w) && TakesHold(w, z, e, target) && JointsLinked(w)
    ensures JointsLinked(z)
  {
    forall f | f in z.nodes ensures HoldOk(z, f) { assert HoldOk(w, f); }
  }

  lemma TakingHoldExact(w: World, z: World, e: Entity, target: Entity)
    requires Keyed(w) && TakesHold(w, z, e, target) && JointsExact(w)
    ensures JointsExact(z)
  {
    TakingHoldLinks(w, z, e, target);
    forall j | j in z.joints ensures Held(z, z.joints[j].owner) == Some(j) {
      if j != w.next { assert Held(w, w.joints[j].owner) == Some(j); }
    }
  }

  predicate SameGrip(n: Node, m: Node) {
    n.agent.Some? == m.agent.Some? && (n.agent.Some? ==> n.agent.value.clamp == m.agent.value.clamp)
  }

  /** Changing one node without its clamp leaves the joint graph alone. */
  lemma SetKeepsJoints(w: World, e: Entity, n: Node)
    requires Keyed(w) && e in w.nodes
    requires SameGrip(n, w.nodes[e])
    ensures Keyed(SetNode(w, e, n))
    ensures JointsLinked(w) ==> JointsLinked(SetNode(w, e, n))
    ensures JointsExact(w) ==> JointsExact(SetNode(w, e, n))
  {
    SameGrips(w, SetNode(w, e, n));
  }

  lemma SetLawful(w: World, e: Entity, n: Node)
    requires Keyed(w) && e in w.nodes && n.origin == w.nodes[e].origin
    requires n.agent.Some? ==> w.nodes[e].agent.Some?
    ensures Lawful(w, SetNode(w, e, n))
  {
  }

  lemma SetKeepsNodes(w: World, e: Entity, n: Node)
    requires NodesOk(w) && NodeOk(n)
    ensures NodesOk(SetNode(w, e, n))
  {
  }

  /** A new node with nothing in its grip. */
  predicate Newborn(n: Node) {
    NodeOk(n) && n.account.ledger == BLANK && (n.agent.Some? ==> n.agent.value.clamp == UNCLAMPED)
  }

  lemma SpawnKeyed(w: World, n: Node)
    requires Keyed(w)
    ensures Keyed(Spawn(w, n)) && w.next !in w.nodes && w.next !in w.joints
  {
  }

  lemma SpawnKeepsJoints(w: World, n: Node)
    requires Keyed(w) && (n.agent.Some? ==> n.agent.value.clamp == UNCLAMPED)
    ensures JointsLinked(w) ==> JointsLinked(Spawn(w, n))
    ensures JointsExact(w) ==> JointsExact(Spawn(w, n))
  {
    SpawnKeyed(w, n);
    SameGrips(w, Spawn(w, n));
  }

  lemma SpawnSums(w: World, n: Node)
    requires Keyed(w)
    ensures Sum(Spawn(w, n).nodes, w.next + 1) == Add(Sum(w.nodes, w.next), Weigh(n))
  {
    SumAgree(w.nodes, Spawn(w, n).nodes, w.next);
  }

  /** The balance of a gift, in totals. */
  lemma EndowTotals(t: Totals, before: Node, parent: Node, child: Node)
    requires child.account.ledger == BLANK && child.mass >= HEAVY
    requires parent.mass + child.mass == before.mass
    requires Own(parent) + child.account.energy == Own(before) && Transit(parent) == Transit(before)
    ensures var u := Add(Add(Less(t, Weigh(before)), Weigh(parent)), Weigh(child));
            && u.mass == t.mass && u.flows.transit == t.flows.transit && u.heavy >= t.heavy
            && NetOf(u.energy, u.flows) == NetOf(t.energy, t.flows)
  {
  }

  lemma EndowSums(w: World, e: Entity, parent: Node, child: Node)
    requires Keyed(w) && e in w.nodes
    ensures var z := Spawn(SetNode(w, e, parent), child);
            Sum(z.nodes, z.next) == Add(Add(Less(Sum(w.nodes, w.next), Weigh(w.nodes[e])), Weigh(parent)), Weigh(child))
  {
    var x := SetNode(w, e, parent);
    SumChange(w.nodes, x.nodes, e, w.next);
    SpawnSums(x, child);
  }

  /** A parent gives mass and energy to a new node; nothing is made or lost. */
  lemma EndowConserves(w: World, e: Entity, parent: Node, child: Node)
    requires Keyed(w) && e in w.nodes && child.account.ledger == BLANK && child.mass >= HEAVY
    requires parent.mass + child.mass == w.nodes[e].mass
    requires Own(parent) + child.account.energy == Own(w.nodes[e]) && Transit(parent) == Transit(w.nodes[e])
    ensures Conserves(w, Spawn(SetNode(w, e, parent), child))
  {
    EndowSums(w, e, parent, child);
    EndowTotals(Sum(w.nodes, w.next), w.nodes[e], parent, child);
  }

  lemma SpawnStep(w: World, n: Node)
    requires Keyed(w) && NodesOk(w) && Newborn(n) && n.origin.None?
    ensures Keyed(Spawn(w, n)) && NodesOk(Spawn(w, n)) && Lawful(w, Spawn(w, n))
  {
  }

  lemma EndowGood(w: World, e: Entity, parent: Node, child: Node)
    requires Keyed(w) && NodesOk(w) && e in w.nodes && Newborn(child) && child.origin.None?
    requires NodeOk(parent) && parent.origin == w.nodes[e].origin && SameGrip(parent, w.nodes[e])
    ensures var z := Spawn(SetNode(w, e, parent), child);
            Keyed(z) && NodesOk(z) && Lawful(w, z)
  {
    var x := SetNode(w, e, parent);
    SetKeepsNodes(w, e, parent);
    SetLawful(w, e, parent);
    SpawnStep(x, child);
    LawfulCompose(w, x, Spawn(x, child));
  }

  lemma EndowTidy(w: World, e: Entity, parent: Node, child: Node)
    requires Good(w) && e in w.nodes && Newborn(child) && child.origin.None?
    requires NodeOk(parent) && parent.origin == w.nodes[e].origin && SameGrip(parent, w.nodes[e])
    ensures Tidy(w, Spawn(SetNode(w, e, parent), child))
  {
    EndowGood(w, e, parent, child);
    SetKeepsJoints(w, e, parent);
    SpawnKeepsJoints(SetNode(w, e, parent), child);
  }

  predicate FairGift(before: Node, parent: Node, child: Node) {
    && parent.mass + child.mass == before.mass && child.mass >= HEAVY
    && Own(parent) + child.account.energy == Own(before) && Transit(parent) == Transit(before)
  }

  /** A gift as a whole step. */
  lemma EndowStep(w: World, e: Entity, parent: Node, child: Node)
    requires Good(w) && e in w.nodes && Newborn(child) && child.origin.None?
    requires NodeOk(parent) && parent.origin == w.nodes[e].origin && SameGrip(parent, w.nodes[e])
    requires FairGift(w.nodes[e], parent, child)
    ensures Step(w, Spawn(SetNode(w, e, parent), child))
  {
    EndowConserves(w, e, parent, child);
    EndowTidy(w, e, parent, child);
  }

  // ---------------------------------------------------------------- coming and going

  function SpawnAll(w: World, ns: seq<Node>): World {
    if ns == [] then w else Spawn(SpawnAll(w, ns[..|ns| - 1]), ns[|ns| - 1])
  }

  function TotalOf(ns: seq<Node>): Totals {
    if ns == [] then NOTHING else Add(TotalOf(ns[..|ns| - 1]), Weigh(ns[|ns| - 1]))
  }

  /** Only new nodes are added, numbered in order, and nothing else changes. */
  ghost predicate Extends(w: World, z: World, count: nat) {
    && z.next == w.next + count && z == w.(nodes := z.nodes, next := z.next)
    && (forall e | e in w.nodes :: e in z.nodes && z.nodes[e] == w.nodes[e])
    && (forall e | e in z.nodes && e !in w.nodes :: w.next <= e < z.next)
  }

  lemma {:induction false} SpawnAllExtends(w: World, ns: seq<Node>)
    requires Keyed(w)
    ensures Keyed(SpawnAll(w, ns)) && Extends(w, SpawnAll(w, ns), |ns|)
  {
    if ns != [] { SpawnAllExtends(w, ns[..|ns| - 1]); }
  }

  lemma {:induction false} SpawnedAt(w: World, ns: seq<Node>, i: nat)
    requires Keyed(w) && i < |ns|
    ensures w.next + i in SpawnAll(w, ns).nodes && SpawnAll(w, ns).nodes[w.next + i] == ns[i]
  {
    SpawnAllExtends(w, ns[..|ns| - 1]);
    if i < |ns| - 1 { SpawnedAt(w, ns[..|ns| - 1], i); }
  }

  lemma {:induction false} SpawnAllSums(w: World, ns: seq<Node>)
    requires Keyed(w)
    ensures var z := SpawnAll(w, ns);
            && Sum(z.nodes, z.next).energy == Sum(w.nodes, w.next).energy + TotalOf(ns).energy
            && Sum(z.nodes, z.next).mass == Sum(w.nodes, w.next).mass + TotalOf(ns).mass
            && Sum(z.nodes, z.next).heavy == Sum(w.nodes, w.next).heavy + TotalOf(ns).heavy
  {
    if ns != [] {
      var x := SpawnAll(w, ns[..|ns| - 1]);
      SpawnAllSums(w, ns[..|ns| - 1]);
      SpawnAllExtends(w, ns[..|ns| - 1]);
      SpawnSums(x, ns[|ns| - 1]);
    }
  }

  lemma {:induction false} SpawnAllFlows(w: World, ns: seq<Node>)
    requires Keyed(w) && forall n | n in ns :: n.account.ledger == BLANK
    ensures Sum(SpawnAll(w, ns).nodes, SpawnAll(w, ns).next).flows == Sum(w.nodes, w.next).flows
  {
    if ns != [] {
      var x := SpawnAll(w, ns[..|ns| - 1]);
      SpawnAllFlows(w, ns[..|ns| - 1]);
      SpawnAllExtends(w, ns[..|ns| - 1]);
      SpawnSums(x, ns[|ns| - 1]);
      assert ns[|ns| - 1].account.ledger == BLANK;
    }
  }

  lemma {:induction false} SpawnAllGood(w: World, ns: seq<Node>)
    requires Good(w) && forall n | n in ns :: Newborn(n)
    ensures Good(SpawnAll(w, ns))
  {
    if ns != [] {
      var x, n := SpawnAll(w, ns[..|ns| - 1]), ns[|ns| - 1];
      SpawnAllGood(w, ns[..|ns| - 1]);
      assert Newborn(n);
      SpawnKeyed(x, n);
      SpawnKeepsJoints(x, n);
    }
  }

  predicate Touches(joint: Joint, e: Entity) {
    joint.owner == e || joint.target == e
  }

  function Unjoined(joints: map<Entity, Joint>, e: Entity): map<Entity, Joint> {
    map j | j in joints && !Touches(joints[j], e) :: joints[j]
  }

  /** A node leaves, with the joints on it; its books are kept. */
  function Despawn(w: World, e: Entity): World
    requires e in w.nodes
  {
    w.(nodes := w.nodes - {e}, joints := Unjoined(w.joints, e),
       books := w.books.(flows := AddFlows(w.books.flows, FlowsOf(w.nodes[e].account.ledger))))
  }

  lemma DespawnGood(w: World, e: Entity)
    requires Good(w) && e in w.nodes
    ensures Good(Despawn(w, e)) && Lawful(w, Despawn(w, e))
  {
    var z := Despawn(w, e);
    forall f | f in z.nodes ensures HoldOk(z, f) && NodeOk(z.nodes[f]) { assert HoldOk(w, f) && NodeOk(w.nodes[f]); }
  }

  lemma DespawnSums(w: World, e: Entity)
    requires Keyed(w) && e in w.nodes
    ensures Sum(Despawn(w, e).nodes, w.next) == Less(Sum(w.nodes, w.next), Weigh(w.nodes[e]))
  {
    SumWithout(w.nodes, Despawn(w, e).nodes, e, w.next);
  }

  /** Like a step, but joints may go without the hand that holds them being told. */
  ghost predicate Sound(w: World, z: World) {
    Conserves(w, z) && Good(z) && Lawful(w, z)
  }

  lemma StepSound(w: World, z: World)
    requires Step(w, z)
    ensures Sound(w, z)
  {
  }

  lemma SoundCompose(w: World, x: World, z: World)
    requires Sound(w, x) && Sound(x, z)
    ensures Sound(w, z)
  {
    LawfulCompose(w, x, z);
  }

  /** A node changed in place, its clamp and its totals aside, as a whole step. */
  lemma SetStep(w: World, e: Entity, n: Node)
    requires Good(w) && e in w.nodes && NodeOk(n) && n.mass == w.nodes[e].mass && n.origin == w.nodes[e].origin
    requires SameGrip(n, w.nodes[e])
    requires Own(n) == Own(w.nodes[e]) && Transit(n) == Transit(w.nodes[e])
    ensures Step(w, SetNode(w, e, n))
  {
    SetShifts(w, e, n);
    SetKeepsJoints(w, e, n);
    SetKeepsNodes(w, e, n);
    SetLawful(w, e, n);
  }
}
