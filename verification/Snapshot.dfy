/**
 Canonical snapshots and stable identities: what a snapshot says does not depend on how the
 entities are numbered, and a captured world comes back exactly.
 */
module Snapshot {
  import opened Wrappers
  import opened Energy
  import opened Orders
  import opened Rejoining
  import W = World
  import Genesis

  type Entity = W.Entity

  const SCHEMA_VERSION := 2

  // ---------------------------------------------------------------- the live world

  datatype Vector = Vector(x: real, y: real)

  datatype Placement = Placement(x: real, y: real, rotation: real)

  datatype Body = Body(mass: real, structure: real, energy: real)

  datatype Oscillator = Oscillator(freq: real, phase: real, baseline: real)

  datatype History = History(ledger: Ledger, born: nat)

  datatype Marker = Marker(generation: nat, lineage: nat, controller: nat)

  datatype Tuning = Tuning(sensorRadius: real, maxNeighbors: nat, yieldAt: real, oscillatorBaseline: real)

  datatype Reproduction = Reproduction(surplus: real, cooldown: real)

  /** The components of one physical node; optional ones may be missing. */
  datatype Components = Components(
    stableId: Option<nat>, placement: Placement, velocity: Option<Vector>, spin: Option<real>,
    body: Body, yieldAt: real, conductivity: real, tags: nat, oscillator: Option<Oscillator>, rng: Option<nat>,
    origin: Option<W.Chunk>, dead: bool, stress: real, history: Option<History>, marker: Option<Marker>,
    tuning: Option<Tuning>,
    reproduction: Option<Reproduction>, fabricate: Option<real>, clamp: Option<W.Clamp>)

  datatype Live = Live(
    seed: nat, step: nat, fieldTime: real, chunks: set<W.Chunk>, entities: map<Entity, Components>,
    joints: map<Entity, W.Joint>, next: Entity, issued: nat)

  // ---------------------------------------------------------------- the snapshot

  datatype CanonicalAgent = CanonicalAgent(
    generation: nat, lineage: nat, tuning: Tuning, reproduction: Reproduction, fabricate: real,
    clampTarget: Option<nat>, clampCooldown: real)

  datatype CanonicalNode = CanonicalNode(
    stableId: nat, placement: Placement, velocity: Vector, spin: real, body: Body, yieldAt: real, conductivity: real,
    tags: nat, oscillator: Option<Oscillator>, rng: nat, origin: Option<W.Chunk>, dead: bool, history: History,
    agent: Option<CanonicalAgent>)

  datatype WorldSnapshot = WorldSnapshot(
    schema: nat, seed: nat, tick: nat, fieldTime: real, checkpoint: Option<string>,
    activeChunks: seq<W.Chunk>, nodes: seq<CanonicalNode>)

  // ---------------------------------------------------------------- stable identities

  /** The number of nodes below `n` that have no identity yet. */
  function Rank(entities: map<Entity, Components>, n: nat): nat {
    if n == 0 then 0
    else Rank(entities, n - 1) + if n - 1 in entities && entities[n - 1].stableId.None? then 1 else 0
  }

  /** The highest identity among the nodes below `n`. */
  function Highest(entities: map<Entity, Components>, n: nat): nat {
    if n == 0 then 0
    else if n - 1 in entities && entities[n - 1].stableId.Some?
    then MaxNat(Highest(entities, n - 1), entities[n - 1].stableId.value)
    else Highest(entities, n - 1)
  }

  function Observed(w: Live): nat {
    MaxNat(w.issued, Highest(w.entities, w.next))
  }

  /** Nodes without an identity get the next ones, in the order of their entities. */
  function Identified(w: Live, e: Entity): Components
    requires e in w.entities
  {
    var c := w.entities[e];
    if c.stableId.Some? then c else c.(stableId := Some(AtMost(U64_MAX, Observed(w) + Rank(w.entities, e) + 1)))
  }

  /** Naming a node changes nothing else about it. */
  lemma IdentifiedOnly(w: Live, e: Entity)
    requires e in w.entities
    ensures Identified(w, e) == w.entities[e].(stableId := Identified(w, e).stableId) && Identified(w, e).stableId.Some?
    ensures e in EnsureStableIds(w).entities && EnsureStableIds(w).entities[e] == Identified(w, e)
  {
  }

  function EnsureStableIds(w: Live): Live {
    w.(entities := map e | e in w.entities :: Identified(w, e),
       issued := if Rank(w.entities, w.next) == 0 then Observed(w)
                 else AtMost(U64_MAX, Observed(w) + Rank(w.entities, w.next)))
  }

  ghost predicate Placed(w: Live) {
    forall e | e in w.entities :: e < w.next
  }

  predicate SameId(w: Live, e: Entity, f: Entity) {
    e in w.entities && f in w.entities && w.entities[e].stableId.Some?
        && w.entities[e].stableId == w.entities[f].stableId
  }

  /** No two nodes share an identity. */
  ghost predicate Distinct(w: Live) {
    forall e, f {:trigger SameId(w, e, f)} :: SameId(w, e, f) ==> e == f
  }

  lemma {:induction false} RankGrows(entities: map<Entity, Components>, m: nat, n: nat)
    requires m <= n
    ensures Rank(entities, m) <= Rank(entities, n)
    ensures m < n && m in entities && entities[m].stableId.None? ==> Rank(entities, m) < Rank(entities, n)
  {
    if m < n { RankGrows(entities, m, n - 1); }
  }

  lemma {:induction false} HighestBounds(entities: map<Entity, Components>, n: nat, e: Entity)
    requires e < n && e in entities && entities[e].stableId.Some?
    ensures entities[e].stableId.value <= Highest(entities, n)
  {
    if e < n - 1 { HighestBounds(entities, n - 1, e); }
  }

  /**
   What an identity is good for: after assignment every node has one, old ones are kept, and
   every new one exceeds all that had been observed, as long as the counter does not saturate.
   */
  lemma FreshIdentities(w: Live)
    requires Placed(w) && Observed(w) + Rank(w.entities, w.next) <= U64_MAX
    ensures var z := EnsureStableIds(w);
            && Placed(z)
            && (forall e | e in z.entities :: z.entities[e].stableId.Some?)
            && (forall e | e in w.entities && w.entities[e].stableId.Some? :: z.entities[e] == w.entities[e])
            && (forall e | e in w.entities && w.entities[e].stableId.None? ::
                  Observed(w) < z.entities[e].stableId.value <= z.issued)
            && (Distinct(w) ==> Distinct(z))
  {
    var z := EnsureStableIds(w);
    forall e | e in w.entities && w.entities[e].stableId.None?
      ensures Observed(w) < z.entities[e].stableId.value <= z.issued
    {
      RankGrows(w.entities, e, w.next);
    }
    forall e: Entity, f: Entity | Distinct(w) && SameId(z, e, f) ensures e == f {
      SameIdBefore(w, e, f);
    }
  }

  lemma SameIdBefore(w: Live, e: Entity, f: Entity)
    requires Placed(w) && Distinct(w) && Observed(w) + Rank(w.entities, w.next) <= U64_MAX
             && SameId(EnsureStableIds(w), e, f)
    ensures e == f
  {
    RankGrows(w.entities, e, w.next);
    RankGrows(w.entities, f, w.next);
    if w.entities[e].stableId.Some? { HighestBounds(w.entities, w.next, e); }
    if w.entities[f].stableId.Some? { HighestBounds(w.entities, w.next, f); }
    if w.entities[e].stableId.Some? && w.entities[f].stableId.Some? {
      assert SameId(w, e, f);
    } else if e < f {
      RankGrows(w.entities, e, f);
    } else if f < e {
      RankGrows(w.entities, f, e);
    }
  }

  predicate Unnamed(w: Live, e: Entity) {
    e in w.entities && w.entities[e].stableId.None?
  }

  /** Every new identity exceeds all that were observed, and those given before it. */
  ghost predicate Fresh(w: Live) {
    && (forall e {:trigger Unnamed(w, e)} | Unnamed(w, e) :: Observed(w) < Identified(w, e).stableId.value)
    && (forall e, f {:trigger Unnamed(w, e), Unnamed(w, f)} | Unnamed(w, e) && Unnamed(w, f) && e < f ::
          Identified(w, e).stableId.value < Identified(w, f).stableId.value)
  }

  lemma {:induction false} LastUnnamed(w: Live, n: nat) returns (e: Entity)
    requires Rank(w.entities, n) > 0
    ensures e < n && Unnamed(w, e) && Rank(w.entities, e) == Rank(w.entities, n) - 1
  {
    if Unnamed(w, n - 1) { e := n - 1; } else { e := LastUnnamed(w, n - 1); }
  }

  /** New identities are fresh exactly as long as the 64-bit counter does not saturate. */
  lemma FreshExactly(w: Live)
    requires Placed(w) && Observed(w) <= U64_MAX
    ensures Fresh(w) <==> Observed(w) + Rank(w.entities, w.next) <= U64_MAX
  {
    if Observed(w) + Rank(w.entities, w.next) <= U64_MAX {
      FreshIdentities(w);
      forall e, f | Unnamed(w, e) && Unnamed(w, f) && e < f
        ensures Identified(w, e).stableId.value < Identified(w, f).stableId.value
      {
        RankGrows(w.entities, e, f);
        RankGrows(w.entities, f, w.next);
      }
    } else {
      var e := LastUnnamed(w, w.next);
      if Rank(w.entities, e) > 0 {
        var f := LastUnnamed(w, e);
        assert Unnamed(w, e) && Unnamed(w, f);
      }
    }
  }

  /** What can happen to identities between snapshots. */
  datatype Act = Spawn(components: Components) | Name(entity: Entity, id: nat) | Despawn(entity: Entity) | Ensure

  predicate Used(w: Live, id: nat) {
    exists e :: e in w.entities && w.entities[e].stableId == Some(id)
  }

  /** Explicit identities are not given twice, and the counter does not saturate. */
  predicate Legal(w: Live, act: Act) {
    match act
    case Spawn(c) => c.stableId.Some? ==> !Used(w, c.stableId.value)
    case Name(e, id) => Unnamed(w, e) && !Used(w, id)
    case Despawn(e) => true
    case Ensure => Observed(w) + Rank(w.entities, w.next) <= U64_MAX
  }

  function Do(w: Live, act: Act): Live
    requires Legal(w, act)
  {
    match act
    case Spawn(c) => w.(entities := w.entities[w.next := c], next := w.next + 1)
    case Name(e, id) => w.(entities := w.entities[e := w.entities[e].(stableId := Some(id))])
    case Despawn(e) => w.(entities := w.entities - {e})
    case Ensure => EnsureStableIds(w)
  }

  /** `z` comes about from `w` by these acts. */
  ghost predicate Comes(w: Live, acts: seq<Act>, z: Live) {
    if acts == [] then z == w
    else exists x {:trigger Legal(x, acts[|acts| - 1])} ::
           Comes(w, acts[..|acts| - 1], x) && Legal(x, acts[|acts| - 1]) && z == Do(x, acts[|acts| - 1])
  }

  lemma DoKeeps(w: Live, act: Act)
    requires Placed(w) && Distinct(w) && Legal(w, act)
    ensures Placed(Do(w, act)) && Distinct(Do(w, act)) && w.issued <= Do(w, act).issued
  {
    var z := Do(w, act);
    match act
    case Ensure => FreshIdentities(w);
    case Spawn(c) => forall e: Entity, f: Entity | SameId(z, e, f) ensures e == f { NewIdAlone(w, z, w.next, e, f); }
    case Name(x, id) => forall e: Entity, f: Entity | SameId(z, e, f) ensures e == f { NewIdAlone(w, z, x, e, f); }
    case Despawn(x) => forall e: Entity, f: Entity | SameId(z, e, f) ensures e == f { assert SameId(w, e, f); }
  }

  lemma NewIdAlone(w: Live, z: Live, x: Entity, e: Entity, f: Entity)
    requires Distinct(w) && SameId(z, e, f) && x in z.entities
    requires z.entities[x].stableId.Some? ==> !Used(w, z.entities[x].stableId.value)
    requires forall y | y in z.entities && y != x :: y in w.entities && w.entities[y] == z.entities[y]
    ensures e == f
  {
    if e != x && f != x { assert SameId(w, e, f); }
  }

  /**
   However nodes are spawned, named, despawned and identified: no two ever share an identity,
   and an identity that is given out later exceeds everything the allocator had seen before.
   */
  lemma {:induction false} IdentitiesOverRuns(w: Live, acts: seq<Act>, z: Live)
    requires Placed(w) && Distinct(w) && Comes(w, acts, z)
    ensures Placed(z) && Distinct(z) && w.issued <= z.issued
    ensures Legal(z, Ensure) ==> forall e | Unnamed(z, e) :: w.issued < EnsureStableIds(z).entities[e].stableId.value
  {
    if acts != [] {
      var last := acts[|acts| - 1];
      var x :| Comes(w, acts[..|acts| - 1], x) && Legal(x, last) && z == Do(x, last);
      IdentitiesOverRuns(w, acts[..|acts| - 1], x);
      DoKeeps(x, last);
    }
    if Legal(z, Ensure) { FreshIdentities(z); }
  }

  // ---------------------------------------------------------------- capture

  function OrElse<T>(o: Option<T>, default: T): T {
    if o.Some? then o.value else default
  }

  /** The identity of the node a clamp holds, if there is such a node. */
  function ClampTarget(w: Live, c: Components): Option<nat> {
    if c.clamp.Some? && c.clamp.value.target.Some? && c.clamp.value.target.value in w.entities
    then w.entities[c.clamp.value.target.value].stableId else None
  }

  function CanonicalAgentOf(w: Live, c: Components): Option<CanonicalAgent> {
    if c.marker.None? || c.tuning.None? then None
    else
      Some(CanonicalAgent(
             c.marker.value.generation, c.marker.value.lineage, c.tuning.value,
             OrElse(c.reproduction, Reproduction(0.0, 0.0)), OrElse(c.fabricate, 0.0),
             ClampTarget(w, c), if c.clamp.Some? then c.clamp.value.cooldown else 0.0))
  }

  function Canonical(w: Live, e: Entity): CanonicalNode
    requires e in w.entities
  {
    var c := w.entities[e];
    CanonicalNode(
      OrElse(c.stableId, 0), c.placement, OrElse(c.velocity, Vector(0.0, 0.0)), OrElse(c.spin, 0.0), c.body, c.yieldAt,
      c.conductivity, c.tags, c.oscillator, OrElse(c.rng, 0), c.origin, c.dead, OrElse(c.history, History(BLANK, 0)),
      CanonicalAgentOf(w, c))
  }

  ghost predicate AllNamed(w: Live) {
    forall e | e in w.entities :: w.entities[e].stableId.Some?
  }

  /** The entities in whatever order a query meets them, each once. */
  ghost predicate Enumerates(order: seq<Entity>, w: Live) {
    MeetsAll(order, w.entities.Keys)
  }

  function Canonicals(w: Live, order: seq<Entity>): (ns: seq<CanonicalNode>)
    requires forall e: Entity {:trigger Meets(order, e)} | Meets(order, e) :: e in w.entities
    ensures |ns| == |order|
    ensures forall i | 0 <= i < |order| :: order[i] in w.entities && ns[i] == Canonical(w, order[i])
  {
    if order == [] then []
    else
      assert Meets(order, order[|order| - 1]);
      var front := order[..|order| - 1];
      assert order == front + [order[|order| - 1]];
      assert forall e: Entity {:trigger Meets(front, e)} | Meets(front, e) :: Meets(order, e);
      Canonicals(w, front) + [Canonical(w, order[|order| - 1])]
  }

  function InsertById(ns: seq<CanonicalNode>, n: CanonicalNode): seq<CanonicalNode> {
    if ns == [] || ns[|ns| - 1].stableId <= n.stableId then ns + [n]
    else InsertById(ns[..|ns| - 1], n) + [ns[|ns| - 1]]
  }

  function SortById(ns: seq<CanonicalNode>): seq<CanonicalNode> {
    if ns == [] then [] else InsertById(SortById(ns[..|ns| - 1]), ns[|ns| - 1])
  }

  function Capture(w: Live, order: seq<Entity>, checkpoint: Option<string>): WorldSnapshot
    requires forall e: Entity {:trigger Meets(order, e)} | Meets(order, e) :: e in w.entities
  {
    var z := EnsureStableIds(w);
    WorldSnapshot(SCHEMA_VERSION, z.seed, z.step, z.fieldTime, checkpoint, Genesis.Ordered(z.chunks),
                  SortById(Canonicals(z, order)))
  }

  ghost predicate ByIdentity(ns: seq<CanonicalNode>) {
    forall i, j | 0 <= i < j < |ns| :: ns[i].stableId < ns[j].stableId
  }

  predicate Clash(ns: seq<CanonicalNode>, i: nat, j: nat) {
    i < |ns| && j < |ns| && ns[i].stableId == ns[j].stableId
  }

  ghost predicate DistinctNodes(ns: seq<CanonicalNode>) {
    forall i: nat, j: nat {:trigger Clash(ns, i, j)} :: Clash(ns, i, j) ==> i == j
  }

  lemma InOrderDistinct(ns: seq<CanonicalNode>)
    requires ByIdentity(ns)
    ensures DistinctNodes(ns)
  {
  }

  lemma {:induction false} InsertHas(ns: seq<CanonicalNode>, n: CanonicalNode, m: CanonicalNode)
    ensures m in InsertById(ns, n) <==> m in ns || m == n
    ensures |InsertById(ns, n)| == |ns| + 1
  {
    if ns != [] && ns[|ns| - 1].stableId > n.stableId {
      assert ns == ns[..|ns| - 1] + [ns[|ns| - 1]];
      InsertHas(ns[..|ns| - 1], n, m);
    }
  }

  lemma {:induction false} InsertKeepsOrder(ns: seq<CanonicalNode>, n: CanonicalNode)
    requires ByIdentity(ns) && forall i | 0 <= i < |ns| :: ns[i].stableId != n.stableId
    ensures ByIdentity(InsertById(ns, n))
  {
    if ns != [] && ns[|ns| - 1].stableId > n.stableId {
      var front, last := ns[..|ns| - 1], ns[|ns| - 1];
      InsertKeepsOrder(front, n);
      var r := InsertById(front, n);
      forall i | 0 <= i < |r| ensures r[i].stableId < last.stableId {
        InsertHas(front, n, r[i]);
      }
    }
  }

  lemma {:induction false} SortHas(ns: seq<CanonicalNode>, m: CanonicalNode)
    ensures m in SortById(ns) <==> m in ns
    ensures |SortById(ns)| == |ns|
  {
    if ns != [] {
      var front, last := ns[..|ns| - 1], ns[|ns| - 1];
      assert ns == front + [last];
      SortHas(front, m);
      InsertHas(SortById(front), last, m);
    }
  }

  lemma {:induction false} SortSorts(ns: seq<CanonicalNode>)
    requires DistinctNodes(ns)
    ensures ByIdentity(SortById(ns))
  {
    if ns != [] {
      var front, last := ns[..|ns| - 1], ns[|ns| - 1];
      forall i: nat, j: nat | Clash(front, i, j) ensures i == j { assert Clash(ns, i, j); }
      SortSorts(front);
      var sorted := SortById(front);
      forall i | 0 <= i < |sorted| ensures sorted[i].stableId != last.stableId {
        SortHas(front, sorted[i]);
        var j: nat :| j < |front| && front[j] == sorted[i];
        assert !Clash(ns, j, |ns| - 1);
      }
      InsertKeepsOrder(sorted, last);
    }
  }

  predicate Lists(ns: seq<CanonicalNode>, n: CanonicalNode) {
    n in ns
  }

  ghost predicate SameContents(a: seq<CanonicalNode>, b: seq<CanonicalNode>) {
    forall n {:trigger Lists(a, n)} {:trigger Lists(b, n)} :: Lists(a, n) <==> Lists(b, n)
  }

  lemma FrontLists(ns: seq<CanonicalNode>, n: CanonicalNode)
    requires ByIdentity(ns) && ns != []
    ensures Lists(ns[..|ns| - 1], n) <==> Lists(ns, n) && n != ns[|ns| - 1]
  {
  }

  lemma LastIsHighest(ns: seq<CanonicalNode>, n: CanonicalNode)
    requires ByIdentity(ns) && Lists(ns, n)
    ensures n.stableId < ns[|ns| - 1].stableId || n == ns[|ns| - 1]
  {
  }

  lemma SameLast(a: seq<CanonicalNode>, b: seq<CanonicalNode>)
    requires ByIdentity(a) && ByIdentity(b) && SameContents(a, b) && a != []
    ensures b != [] && a[|a| - 1] == b[|b| - 1]
  {
    assert Lists(a, a[|a| - 1]);
    LastIsHighest(b, a[|a| - 1]);
    assert Lists(b, b[|b| - 1]);
    LastIsHighest(a, b[|b| - 1]);
  }

  /** There is only one way to put the same nodes in order. */
  lemma {:induction false} OneOrder(a: seq<CanonicalNode>, b: seq<CanonicalNode>)
    requires ByIdentity(a) && ByIdentity(b) && SameContents(a, b)
    ensures a == b
  {
    if a == [] {
      if b != [] { SameLast(b, a); }
    } else {
      SameLast(a, b);
      var p, q := a[..|a| - 1], b[..|b| - 1];
      forall n ensures Lists(p, n) <==> Lists(q, n) {
        FrontLists(a, n);
        FrontLists(b, n);
      }
      OneOrder(p, q);
      assert a == p + [a[|a| - 1]] && b == q + [b[|b| - 1]];
    }
  }

  // ---------------------------------------------------------------- restore

  /** Where the node with this identity is; the last one, if there were several. */
  function IndexOf(ns: seq<CanonicalNode>, id: nat): (i: Option<nat>)
    ensures i.Some? ==> i.value < |ns| && ns[i.value].stableId == id
  {
    if ns == [] then None
    else if ns[|ns| - 1].stableId == id then Some(|ns| - 1)
    else IndexOf(ns[..|ns| - 1], id)
  }

  lemma {:induction false} IndexOfListed(ns: seq<CanonicalNode>, n: CanonicalNode)
    requires n in ns
    ensures IndexOf(ns, n.stableId).Some?
  {
    assert ns == ns[..|ns| - 1] + [ns[|ns| - 1]];
    if ns[|ns| - 1].stableId != n.stableId { IndexOfListed(ns[..|ns| - 1], n); }
  }

  /** The node that the i-th node's clamp held, if it is in the snapshot. */
  function Holds(ns: seq<CanonicalNode>, i: nat): Option<nat>
    requires i < |ns|
  {
    if ns[i].agent.None? || ns[i].agent.value.clampTarget.None? then None
    else IndexOf(ns, ns[i].agent.value.clampTarget.value)
  }

  /** The joint made for the i-th node; its owner is whoever has that identity. */
  function LinkAt(ns: seq<CanonicalNode>, i: nat): Option<W.Joint>
    requires i < |ns|
  {
    var owner, target := IndexOf(ns, ns[i].stableId), Holds(ns, i);
    if owner.Some? && target.Some? then Some(W.Joint(owner.value, target.value)) else None
  }

  function LinksOf(ns: seq<CanonicalNode>): (links: Links)
    ensures |links| == |ns| && forall i | 0 <= i < |ns| :: links[i] == LinkAt(ns, i)
  {
    seq(|ns|, i requires 0 <= i < |ns| => LinkAt(ns, i))
  }

  /** An earlier agent of the same identity has taken the controller. */
  predicate Taken(ns: seq<CanonicalNode>, i: nat, id: nat)
    requires i <= |ns|
  {
    exists k: nat :: k < i && ns[k].agent.Some? && ns[k].stableId == id
  }

  predicate Supplied(ns: seq<CanonicalNode>, supplied: set<nat>, i: nat)
    requires i < |ns|
  {
    ns[i].agent.Some? && ns[i].stableId in supplied && !Taken(ns, i, ns[i].stableId)
  }

  function SuppliedBefore(ns: seq<CanonicalNode>, supplied: set<nat>, i: nat): nat
    requires i <= |ns|
  {
    if i == 0 then 0 else SuppliedBefore(ns, supplied, i - 1) + if Supplied(ns, supplied, i - 1) then 1 else 0
  }

  function Inert(n: CanonicalNode): Components {
    Components(Some(n.stableId), n.placement, Some(n.velocity), Some(n.spin), n.body, n.yieldAt, n.conductivity, n.tags,
               n.oscillator, Some(n.rng), n.origin, n.dead, 0.0, Some(n.history), None, None, None, None, None)
  }

  function Animated(n: CanonicalNode, controller: nat, clamp: W.Clamp): Components
    requires n.agent.Some?
  {
    var a := n.agent.value;
    Inert(n).(marker := Some(Marker(a.generation, a.lineage, controller)), tuning := Some(a.tuning),
              reproduction := Some(a.reproduction), fabricate := Some(a.fabricate), clamp := Some(clamp))
  }

  /** The k-th node, alive again, once the first `i` joints are made; an agent only if its controller is supplied. */
  function Joined(ns: seq<CanonicalNode>, supplied: set<nat>, i: nat, k: nat): Components
    requires i <= |ns| && k < |ns|
  {
    if Supplied(ns, supplied, k) then
      Animated(ns[k], SuppliedBefore(ns, supplied, k),
               GripLeft(LinksOf(ns), |ns|, i, k, ns[k].agent.value.clampCooldown))
    else Inert(ns[k])
  }

  function JoinedAll(ns: seq<CanonicalNode>, supplied: set<nat>, i: nat): map<Entity, Components>
    requires i <= |ns|
  {
    map k: nat | k < |ns| :: Joined(ns, supplied, i, k)
  }

  function HighestId(ns: seq<CanonicalNode>): nat {
    if ns == [] then 0 else MaxNat(HighestId(ns[..|ns| - 1]), ns[|ns| - 1].stableId)
  }

  function RestoredWorld(s: WorldSnapshot, supplied: set<nat>): Live {
    var ns := s.nodes;
    Live(s.seed, s.tick, s.fieldTime, (set c | c in s.activeChunks),
         JoinedAll(ns, supplied, |ns|), JointsFrom(LinksOf(ns), |ns|, |ns|),
         |ns| + Made(LinksOf(ns), |ns|), HighestId(ns))
  }

  function Restore(s: WorldSnapshot, supplied: set<nat>): Result<Live, string> {
    if s.schema != SCHEMA_VERSION then Failure("unsupported snapshot schema") else Success(RestoredWorld(s, supplied))
  }

  // ---------------------------------------------------------------- round trips

  ghost predicate InOrder(cs: seq<W.Chunk>) {
    forall i, j | 0 <= i < j < |cs| :: Genesis.Before(cs[i], cs[j])
  }

  lemma FirstInOrder(cs: seq<W.Chunk>)
    requires InOrder(cs) && cs != []
    ensures Genesis.First((set c | c in cs), cs[0])
    ensures (set c | c in cs) - {cs[0]} == (set c | c in cs[1..])
  {
  }

  lemma {:induction false} OrderedOfInOrder(cs: seq<W.Chunk>)
    requires InOrder(cs)
    ensures Genesis.Ordered(set c | c in cs) == cs
  {
    if cs == [] {
      assert (set c | c in cs) == {};
    } else {
      FirstInOrder(cs);
      Genesis.OrderedFrom((set c | c in cs), cs[0]);
      OrderedOfInOrder(cs[1..]);
      assert cs == [cs[0]] + cs[1..];
    }
  }

  lemma OrderedInOrder(all: set<W.Chunk>)
    ensures InOrder(Genesis.Ordered(all))
  {
    var cs := Genesis.Ordered(all);
    forall i, j | 0 <= i < j < |cs| ensures Genesis.Before(cs[i], cs[j]) { Genesis.OrderedRises(all, i, j); }
  }

  /** The i-th node comes back as it was: its controller is there, and so is what it held. */
  predicate Faithful(ns: seq<CanonicalNode>, supplied: set<nat>, i: nat)
    requires i < |ns|
  {
    ns[i].agent.Some? ==>
      && ns[i].stableId in supplied
      && (ns[i].agent.value.clampTarget.Some? ==> IndexOf(ns, ns[i].agent.value.clampTarget.value).Some?)
  }

  /** What a snapshot must be like to come back exactly. */
  ghost predicate Restorable(s: WorldSnapshot, supplied: set<nat>) {
    && s.schema == SCHEMA_VERSION && InOrder(s.activeChunks) && ByIdentity(s.nodes)
    && forall i: nat | i < |s.nodes| :: Faithful(s.nodes, supplied, i)
  }

  lemma {:induction false} IndexOfOnly(ns: seq<CanonicalNode>, i: nat)
    requires DistinctNodes(ns) && i < |ns|
    ensures IndexOf(ns, ns[i].stableId) == Some(i)
  {
    IndexOfListed(ns, ns[i]);
    assert Clash(ns, i, IndexOf(ns, ns[i].stableId).value);
  }

  /** With distinct identities each node owns its own joint and has its own controller. */
  lemma DistinctLinks(ns: seq<CanonicalNode>, supplied: set<nat>, i: nat)
    requires DistinctNodes(ns) && i < |ns|
    ensures LinkAt(ns, i) == if Holds(ns, i).Some? then Some(W.Joint(i, Holds(ns, i).value)) else None
    ensures Supplied(ns, supplied, i) <==> ns[i].agent.Some? && ns[i].stableId in supplied
  {
    IndexOfOnly(ns, i);
    forall k: nat | k < i ensures ns[k].stableId != ns[i].stableId { assert !Clash(ns, k, i); }
  }

  lemma {:induction false} DistinctLatest(ns: seq<CanonicalNode>, n: nat, i: nat)
    requires DistinctNodes(ns) && i < |ns| && n <= |ns|
    ensures LatestOf(LinksOf(ns), n, i) == if i < n && Holds(ns, i).Some? then Some(i) else None
  {
    if n > 0 {
      DistinctLinks(ns, {}, n - 1);
      DistinctLatest(ns, n - 1, i);
    }
  }

  lemma RevivedCanonical(s: WorldSnapshot, supplied: set<nat>, i: nat)
    requires DistinctNodes(s.nodes) && i < |s.nodes|
    ensures Canonical(RestoredWorld(s, supplied), i).stableId == s.nodes[i].stableId
    ensures Canonical(RestoredWorld(s, supplied), i) == s.nodes[i] <==> Faithful(s.nodes, supplied, i)
  {
    DistinctLinks(s.nodes, supplied, i);
    DistinctLatest(s.nodes, |s.nodes|, i);
  }

  lemma AllNamedStays(w: Live)
    requires AllNamed(w)
    ensures EnsureStableIds(w) == w.(issued := EnsureStableIds(w).issued)
    ensures AllNamed(EnsureStableIds(w)) && forall e | e in w.entities ::
              Canonical(EnsureStableIds(w), e) == Canonical(w, e)
  {
  }

  lemma {:induction false} CanonicalsHave(w: Live, order: seq<Entity>, n: CanonicalNode)
    requires AllNamed(w) && Enumerates(order, w)
    ensures n in Canonicals(w, order) <==> exists e :: e in w.entities && Canonical(w, e) == n
  {
    var ns := Canonicals(w, order);
    if n in ns {
      var i :| 0 <= i < |ns| && ns[i] == n;
      assert order[i] in w.entities;
    }
    if e :| e in w.entities && Canonical(w, e) == n {
      assert Meets(order, e);
      var i :| 0 <= i < |order| && order[i] == e;
      assert ns[i] == n;
    }
  }

  lemma CanonicalsDistinct(w: Live, order: seq<Entity>)
    requires AllNamed(w) && Distinct(w) && Enumerates(order, w)
    ensures DistinctNodes(Canonicals(w, order))
  {
    var ns := Canonicals(w, order);
    forall i: nat, j: nat | Clash(ns, i, j) ensures i == j {
      assert SameId(w, order[i], order[j]);
      assert !MeetsTwice(order, i, j) && !MeetsTwice(order, j, i);
    }
  }

  lemma CapturedInOrder(w: Live, order: seq<Entity>, checkpoint: Option<string>)
    requires AllNamed(w) && Distinct(w) && Enumerates(order, w)
    ensures ByIdentity(Capture(w, order, checkpoint).nodes)
  {
    AllNamedStays(w);
    var z := EnsureStableIds(w);
    forall e: Entity, f: Entity | SameId(z, e, f) ensures e == f { assert SameId(w, e, f); }
    CanonicalsDistinct(z, order);
    SortSorts(Canonicals(z, order));
  }

  /** The captured nodes, for any order in which the query meets the entities. */
  lemma CapturedHas(w: Live, order: seq<Entity>, checkpoint: Option<string>, n: CanonicalNode)
    requires AllNamed(w) && Enumerates(order, w)
    ensures n in Capture(w, order, checkpoint).nodes <==> exists e :: e in w.entities && Canonical(w, e) == n
  {
    AllNamedStays(w);
    var z := EnsureStableIds(w);
    SortHas(Canonicals(z, order), n);
    CanonicalsHave(z, order, n);
    CanonicalSame(w, n);
  }

  lemma CanonicalSame(w: Live, n: CanonicalNode)
    requires AllNamed(w)
    ensures (exists e :: e in w.entities && Canonical(w, e) == n)
            <==> (exists e :: e in EnsureStableIds(w).entities && Canonical(EnsureStableIds(w), e) == n)
  {
    AllNamedStays(w);
    var z := EnsureStableIds(w);
    if e :| e in w.entities && Canonical(w, e) == n { assert e in z.entities && Canonical(z, e) == n; }
    if e :| e in z.entities && Canonical(z, e) == n { assert e in w.entities && Canonical(w, e) == n; }
  }

  lemma RestoredDistinct(s: WorldSnapshot, supplied: set<nat>)
    requires DistinctNodes(s.nodes)
    ensures Distinct(RestoredWorld(s, supplied))
  {
    var w := RestoredWorld(s, supplied);
    forall e: Entity, f: Entity | SameId(w, e, f) ensures e == f {
      assert Clash(s.nodes, e, f);
    }
  }

  /** A restorable snapshot comes back. */
  lemma ComesBack(s: WorldSnapshot, supplied: set<nat>, order: seq<Entity>)
    requires Restorable(s, supplied) && Enumerates(order, RestoredWorld(s, supplied))
    ensures Capture(RestoredWorld(s, supplied), order, s.checkpoint) == s
  {
    var w := RestoredWorld(s, supplied);
    var ns := Capture(w, order, s.checkpoint).nodes;
    InOrderDistinct(s.nodes);
    RestoredDistinct(s, supplied);
    CapturedInOrder(w, order, s.checkpoint);
    forall n ensures Lists(ns, n) <==> Lists(s.nodes, n) { NodeComesBack(s, supplied, order, n); }
    OneOrder(ns, s.nodes);
    OrderedOfInOrder(s.activeChunks);
  }

  lemma NodeComesBack(s: WorldSnapshot, supplied: set<nat>, order: seq<Entity>, n: CanonicalNode)
    requires Restorable(s, supplied) && Enumerates(order, RestoredWorld(s, supplied))
    ensures n in Capture(RestoredWorld(s, supplied), order, s.checkpoint).nodes <==> n in s.nodes
  {
    var w := RestoredWorld(s, supplied);
    InOrderDistinct(s.nodes);
    CapturedHas(w, order, s.checkpoint, n);
    if n in s.nodes {
      var i: nat :| i < |s.nodes| && s.nodes[i] == n;
      RevivedCanonical(s, supplied, i);
      assert i in w.entities && Canonical(w, i) == n;
    }
    if e :| e in w.entities && Canonical(w, e) == n { RevivedCanonical(s, supplied, e); }
  }

  /** A node that comes back was faithful. */
  lemma OnlyFaithful(s: WorldSnapshot, supplied: set<nat>, order: seq<Entity>, i: nat)
    requires DistinctNodes(s.nodes) && Enumerates(order, RestoredWorld(s, supplied)) && i < |s.nodes|
    requires Capture(RestoredWorld(s, supplied), order, s.checkpoint).nodes == s.nodes
    ensures Faithful(s.nodes, supplied, i)
  {
    var w := RestoredWorld(s, supplied);
    RevivedCanonical(s, supplied, i);
    CapturedHas(w, order, s.checkpoint, Canonical(w, i));
    assert i in w.entities;
    var j: nat :| j < |s.nodes| && s.nodes[j] == Canonical(w, i);
    assert Clash(s.nodes, i, j);
  }

  lemma OnlyInOrder(s: WorldSnapshot, supplied: set<nat>, order: seq<Entity>)
    requires DistinctNodes(s.nodes) && Enumerates(order, RestoredWorld(s, supplied))
    requires Capture(RestoredWorld(s, supplied), order, s.checkpoint).nodes == s.nodes
    ensures ByIdentity(s.nodes)
  {
    RestoredDistinct(s, supplied);
    CapturedInOrder(RestoredWorld(s, supplied), order, s.checkpoint);
  }

  /** What comes back was restorable. */
  lemma OnlyRestorable(s: WorldSnapshot, supplied: set<nat>, order: seq<Entity>)
    requires DistinctNodes(s.nodes) && Enumerates(order, RestoredWorld(s, supplied)) && s.schema == SCHEMA_VERSION
    requires Capture(RestoredWorld(s, supplied), order, s.checkpoint) == s
    ensures Restorable(s, supplied)
  {
    OnlyInOrder(s, supplied, order);
    OrderedInOrder(RestoredWorld(s, supplied).chunks);
    forall i: nat | i < |s.nodes| ensures Faithful(s.nodes, supplied, i) { OnlyFaithful(s, supplied, order, i); }
  }

  /**
   The round trip: a snapshot whose identities are distinct can be restored to a world that is
   captured as the same snapshot, in whatever order queries meet its entities, exactly if it
   has the current schema, lists its chunks and nodes in order, every agent has a controller,
   and every clamp holds a node of the snapshot.
   */
  lemma RoundTrip(s: WorldSnapshot, supplied: set<nat>, order: seq<Entity>)
    requires DistinctNodes(s.nodes) && Enumerates(order, RestoredWorld(s, supplied))
    ensures Restore(s, supplied).Success? && Capture(RestoredWorld(s, supplied), order, s.checkpoint) == s
            <==> Restorable(s, supplied)
  {
    if Restorable(s, supplied) { ComesBack(s, supplied, order); }
    if s.schema == SCHEMA_VERSION && Capture(RestoredWorld(s, supplied), order, s.checkpoint) == s {
      OnlyRestorable(s, supplied, order);
    }
  }

  /** A capture names the nodes first; capturing again changes nothing. */
  lemma CaptureNames(w: Live, order: seq<Entity>, checkpoint: Option<string>)
    requires Placed(w) && Enumerates(order, w)
    ensures var z := EnsureStableIds(w);
            AllNamed(z) && Enumerates(order, z) && Capture(z, order, checkpoint) == Capture(w, order, checkpoint)
  {
    var z := EnsureStableIds(w);
    assert z.entities.Keys == w.entities.Keys;
    AllNamedStays(z);
    assert Canonicals(EnsureStableIds(z), order) == Canonicals(z, order);
  }

  /**
   Every capture of a world is restorable, with the controllers of its agents: durable
   sessions lose nothing that a snapshot holds.
   */
  lemma CapturesRestore(w: Live, order: seq<Entity>, checkpoint: Option<string>, supplied: set<nat>)
    requires Placed(w) && Distinct(w) && Legal(w, Ensure) && Enumerates(order, w)
    requires forall e | e in w.entities && w.entities[e].marker.Some? :: Identified(w, e).stableId.value in supplied
    ensures Restorable(Capture(w, order, checkpoint), supplied)
  {
    CaptureNames(w, order, checkpoint);
    FreshIdentities(w);
    NamedRestores(EnsureStableIds(w), order, checkpoint, supplied);
  }

  lemma NamedRestores(w: Live, order: seq<Entity>, checkpoint: Option<string>, supplied: set<nat>)
    requires AllNamed(w) && Distinct(w) && Enumerates(order, w)
    requires forall e | e in w.entities && w.entities[e].marker.Some? :: w.entities[e].stableId.value in supplied
    ensures Restorable(Capture(w, order, checkpoint), supplied)
  {
    var s := Capture(w, order, checkpoint);
    AllNamedStays(w);
    CapturedInOrder(w, order, checkpoint);
    OrderedInOrder(w.chunks);
    forall i: nat | i < |s.nodes| ensures Faithful(s.nodes, supplied, i) {
      CapturedHas(w, order, checkpoint, s.nodes[i]);
      var e :| e in w.entities && Canonical(w, e) == s.nodes[i];
      if s.nodes[i].agent.Some? && s.nodes[i].agent.value.clampTarget.Some? {
        var target := w.entities[e].clamp.value.target.value;
        CapturedHas(w, order, checkpoint, Canonical(w, target));
        IndexOfListed(s.nodes, Canonical(w, target));
      }
    }
  }

  /** Captured, restored with all controllers, and captured again, a world gives the same snapshot. */
  lemma CaptureComesBack(w: Live, order: seq<Entity>, checkpoint: Option<string>, supplied: set<nat>,
                         again: seq<Entity>)
    requires Placed(w) && Distinct(w) && Legal(w, Ensure) && Enumerates(order, w)
    requires forall e | e in w.entities && w.entities[e].marker.Some? :: Identified(w, e).stableId.value in supplied
    requires Enumerates(again, RestoredWorld(Capture(w, order, checkpoint), supplied))
    ensures var s := Capture(w, order, checkpoint);
            Restore(s, supplied).Success? && Capture(RestoredWorld(s, supplied), again, checkpoint) == s
  {
    CapturesRestore(w, order, checkpoint, supplied);
    ComesBack(Capture(w, order, checkpoint), supplied, again);
  }

  // ---------------------------------------------------------------- what a capture shows

  /** The identity a node has, or is about to be given. */
  function IdentityOf(w: Live, e: Entity): nat
    requires e in w.entities
  {
    OrElse(Identified(w, e).stableId, 0)
  }

  /** What the hand of a node is on, by identity; a target that is gone is none. */
  predicate Clutches(w: Live, c: Components, target: Option<nat>) {
    match target
    case Some(id) =>
      c.clamp.Some? && c.clamp.value.target.Some? && c.clamp.value.target.value in w.entities
      && IdentityOf(w, c.clamp.value.target.value) == id
    case None => c.clamp.Some? && c.clamp.value.target.Some? ==> c.clamp.value.target.value !in w.entities
  }

  /** The agent as it is: whoever is marked and tuned; components it lacks read as zero. */
  predicate PortraysAgent(w: Live, c: Components, a: CanonicalAgent) {
    && c.marker.Some? && c.tuning.Some? && a.tuning == c.tuning.value
    && a.generation == c.marker.value.generation && a.lineage == c.marker.value.lineage
    && a.reproduction == (if c.reproduction.Some? then c.reproduction.value else Reproduction(0.0, 0.0))
    && a.fabricate == (if c.fabricate.Some? then c.fabricate.value else 0.0)
    && a.clampCooldown == (if c.clamp.Some? then c.clamp.value.cooldown else 0.0) && Clutches(w, c, a.clampTarget)
  }

  /** The node as it is, under its identity; components it lacks read as zero. */
  predicate Portrays(w: Live, e: Entity, n: CanonicalNode) {
    e in w.entities
    && var c := w.entities[e];
       && n.stableId == IdentityOf(w, e) && n.placement == c.placement && n.body == c.body && n.yieldAt == c.yieldAt
       && n.conductivity == c.conductivity && n.tags == c.tags && n.oscillator == c.oscillator
       && n.origin == c.origin && n.dead == c.dead
       && n.velocity == (if c.velocity.Some? then c.velocity.value else Vector(0.0, 0.0))
       && n.spin == (if c.spin.Some? then c.spin.value else 0.0)
       && n.rng == (if c.rng.Some? then c.rng.value else 0)
       && n.history == (if c.history.Some? then c.history.value else History(BLANK, 0))
       && (n.agent.Some? <==> c.marker.Some? && c.tuning.Some?)
       && (n.agent.Some? ==> PortraysAgent(w, c, n.agent.value))
  }

  lemma CanonicalPortrays(w: Live, e: Entity, n: CanonicalNode)
    requires e in w.entities
    ensures Canonical(EnsureStableIds(w), e) == n <==> Portrays(w, e, n)
  {
    var z, c := EnsureStableIds(w), w.entities[e];
    IdentifiedOnly(w, e);
    if c.clamp.Some? && c.clamp.value.target.Some? && c.clamp.value.target.value in w.entities {
      IdentifiedOnly(w, c.clamp.value.target.value);
    }
    TargetIs(w, e);
  }

  lemma TargetIs(w: Live, e: Entity)
    requires e in w.entities
    ensures var z := EnsureStableIds(w);
            forall t :: ClampTarget(z, z.entities[e]) == t <==> Clutches(w, w.entities[e], t)
  {
    var c := w.entities[e];
    IdentifiedOnly(w, e);
    if c.clamp.Some? && c.clamp.value.target.Some? && c.clamp.value.target.value in w.entities {
      IdentifiedOnly(w, c.clamp.value.target.value);
    }
  }

  /** A capture lists exactly the nodes there are, each as it is and under its identity, and the world around them. */
  lemma CapturedExactly(w: Live, order: seq<Entity>, checkpoint: Option<string>, n: CanonicalNode)
    requires Placed(w) && Enumerates(order, w)
    ensures var s := Capture(w, order, checkpoint);
            && (n in s.nodes <==> exists e :: Portrays(w, e, n))
            && s.schema == 2 && s.seed == w.seed && s.tick == w.step && s.fieldTime == w.fieldTime
            && s.checkpoint == checkpoint && (forall c :: c in s.activeChunks <==> c in w.chunks)
  {
    var z := EnsureStableIds(w);
    forall c ensures c in Genesis.Ordered(w.chunks) <==> c in w.chunks { Genesis.OrderedHas(w.chunks, c); }
    CaptureNames(w, order, checkpoint);
    CapturedHas(z, order, checkpoint, n);
    if e :| Portrays(w, e, n) {
      CanonicalPortrays(w, e, n);
      assert e in z.entities && Canonical(z, e) == n;
    }
    if e :| e in z.entities && Canonical(z, e) == n { CanonicalPortrays(w, e, n); }
  }

  lemma {:induction false} SuppliedGrows(ns: seq<CanonicalNode>, supplied: set<nat>, i: nat, k: nat)
    requires i < k <= |ns|
    ensures SuppliedBefore(ns, supplied, i) <= SuppliedBefore(ns, supplied, k)
    ensures Supplied(ns, supplied, i) ==> SuppliedBefore(ns, supplied, i) < SuppliedBefore(ns, supplied, k)
  {
    if i < k - 1 { SuppliedGrows(ns, supplied, i, k - 1); }
  }

  lemma {:induction false} HighestIs(ns: seq<CanonicalNode>, n: CanonicalNode)
    ensures n in ns ==> n.stableId <= HighestId(ns)
    ensures ns != [] ==> exists m :: m in ns && m.stableId == HighestId(ns)
  {
    if ns != [] {
      var front, last := ns[..|ns| - 1], ns[|ns| - 1];
      HighestIs(front, n);
      assert ns == front + [last];
      if front != [] && HighestId(ns) != last.stableId {
        var m :| m in front && m.stableId == HighestId(front);
        assert m in ns;
      } else {
        assert last in ns && last.stableId == HighestId(ns);
      }
    }
  }

  /**
   What a restored world starts from: every restored agent has a controller of its own, and the
   allocator has seen the highest identity of the snapshot, and none above.
   */
  lemma RestoredAfresh(s: WorldSnapshot, supplied: set<nat>)
    ensures var w := RestoredWorld(s, supplied);
            && (forall e, f | e in w.entities && f in w.entities && e < f
                  && w.entities[e].marker.Some? && w.entities[f].marker.Some? ::
                  w.entities[e].marker.value.controller != w.entities[f].marker.value.controller)
            && (forall n | n in s.nodes :: n.stableId <= w.issued)
            && (if s.nodes == [] then w.issued == 0 else exists n :: n in s.nodes && n.stableId == w.issued)
            && (forall e | e in w.entities :: w.entities[e].stress == 0.0)
  {
    var w := RestoredWorld(s, supplied);
    forall e, f | e in w.entities && f in w.entities && e < f
      && w.entities[e].marker.Some? && w.entities[f].marker.Some?
      ensures w.entities[e].marker.value.controller != w.entities[f].marker.value.controller
    {
      SuppliedGrows(s.nodes, supplied, e, f);
    }
    forall n | n in s.nodes ensures n.stableId <= w.issued { HighestIs(s.nodes, n); }
    if s.nodes != [] { HighestIs(s.nodes, s.nodes[0]); }
  }

  // ---------------------------------------------------------------- independence of entity numbers

  /** How a clamp reads once entities are renumbered; a target that is gone stays gone. */
  predicate SameTarget(w: Live, z: Live, to: map<Entity, Entity>, c: Components, d: Components) {
    var s := if c.clamp.Some? then c.clamp.value.target else None;
    var t := if d.clamp.Some? then d.clamp.value.target else None;
    if s.Some? && s.value in to then t == Some(to[s.value]) else t.None? || t.value !in z.entities
  }

  /** The same components, whatever entities the clamp refers to. */
  predicate SameComponents(c: Components, d: Components) {
    && c.clamp.Some? == d.clamp.Some?
    && c == d.(clamp := c.clamp)
    && (c.clamp.Some? ==> c.clamp.value.cooldown == d.clamp.value.cooldown)
  }

  /** `z` is `w` with its entities renumbered. */
  ghost predicate Renumbered(w: Live, z: Live, to: map<Entity, Entity>) {
    && z.seed == w.seed && z.step == w.step && z.fieldTime == w.fieldTime && z.chunks == w.chunks
    && to.Keys == w.entities.Keys && (forall e | e in to :: to[e] in z.entities)
    && (forall f | f in z.entities :: exists e :: e in to && to[e] == f)
    && (forall e | e in to ::
          && SameComponents(w.entities[e], z.entities[to[e]])
          && SameTarget(w, z, to, w.entities[e], z.entities[to[e]]))
  }

  lemma RenumberedCanonical(w: Live, z: Live, to: map<Entity, Entity>, e: Entity)
    requires Renumbered(w, z, to) && AllNamed(w) && e in w.entities
    ensures z.entities[to[e]].stableId.Some? && Canonical(z, to[e]) == Canonical(w, e)
  {
    var c, d := w.entities[e], z.entities[to[e]];
    assert SameComponents(c, d) && SameTarget(w, z, to, c, d);
    if c.clamp.Some? && c.clamp.value.target.Some? && c.clamp.value.target.value in w.entities {
      var t := c.clamp.value.target.value;
      assert SameComponents(w.entities[t], z.entities[to[t]]);
    }
    assert ClampTarget(w, c) == ClampTarget(z, d);
  }

  /**
   A capture is canonical: it does not depend on how entities are numbered, nor on the order
   in which queries meet them, once all nodes have distinct stable identities.
   */
  lemma CaptureIsCanonical(w: Live, z: Live, to: map<Entity, Entity>, order: seq<Entity>, other: seq<Entity>,
                           checkpoint: Option<string>)
    requires AllNamed(w) && Distinct(w) && Renumbered(w, z, to)
    requires forall e, f | e in to && f in to && to[e] == to[f] :: e == f
    requires Enumerates(order, w) && Enumerates(other, z)
    ensures AllNamed(z) && Capture(w, order, checkpoint) == Capture(z, other, checkpoint)
  {
    RenumberedNamed(w, z, to);
    RenumberedDistinct(w, z, to);
    CapturedInOrder(w, order, checkpoint);
    CapturedInOrder(z, other, checkpoint);
    AllNamedStays(w);
    AllNamedStays(z);
    var a, b := Capture(w, order, checkpoint).nodes, Capture(z, other, checkpoint).nodes;
    forall n ensures Lists(a, n) <==> Lists(b, n) {
      CapturedHas(w, order, checkpoint, n);
      CapturedHas(z, other, checkpoint, n);
      SameNodes(w, z, to, n);
    }
    OneOrder(a, b);
  }

  lemma RenumberedNamed(w: Live, z: Live, to: map<Entity, Entity>)
    requires AllNamed(w) && Renumbered(w, z, to)
    ensures AllNamed(z)
  {
    forall f | f in z.entities ensures z.entities[f].stableId.Some? {
      var e :| e in to && to[e] == f;
      RenumberedCanonical(w, z, to, e);
    }
  }

  lemma RenumberedDistinct(w: Live, z: Live, to: map<Entity, Entity>)
    requires AllNamed(w) && Distinct(w) && Renumbered(w, z, to)
    ensures Distinct(z)
  {
    forall f: Entity, g: Entity | SameId(z, f, g) ensures f == g {
      var d :| d in to && to[d] == f;
      var e :| e in to && to[e] == g;
      assert SameComponents(w.entities[d], z.entities[f]) && SameComponents(w.entities[e], z.entities[g]);
      assert SameId(w, d, e);
    }
  }

  lemma SameNodes(w: Live, z: Live, to: map<Entity, Entity>, n: CanonicalNode)
    requires AllNamed(w) && AllNamed(z) && Renumbered(w, z, to)
    ensures (exists e :: e in w.entities && Canonical(w, e) == n)
            <==> (exists f :: f in z.entities && Canonical(z, f) == n)
  {
    if e :| e in w.entities && Canonical(w, e) == n {
      RenumberedCanonical(w, z, to, e);
      assert to[e] in z.entities && Canonical(z, to[e]) == n;
    }
    if f :| f in z.entities && Canonical(z, f) == n {
      var e :| e in to && to[e] == f;
      RenumberedCanonical(w, z, to, e);
      assert e in w.entities && Canonical(w, e) == n;
    }
  }

  // ---------------------------------------------------------------- restored joints

  /** The clamps there are. */
  function HandsOf(w: Live): Hands {
    map e | e in w.entities && w.entities[e].clamp.Some? :: w.entities[e].clamp.value
  }

  lemma RestoredHands(s: WorldSnapshot, supplied: set<nat>)
    ensures var w := RestoredWorld(s, supplied);
            && LeftIn(LinksOf(s.nodes), |s.nodes|, HandsOf(w))
            && (forall e: Entity :: e in HandsOf(w) <==> e < |s.nodes| && Supplied(s.nodes, supplied, e))
  {
  }

  /**
   Whatever a snapshot holds and whichever controllers are supplied: every joint that a
   restored clamp holds is live, its own, and on its target, and every live joint has both
   ends. Joints and clamps correspond one to one at once exactly if each joint's owner is an
   agent with its controller, and no later joint has taken the place of its own.
   */
  lemma RestoredJoints(s: WorldSnapshot, supplied: set<nat>)
    ensures var w := RestoredWorld(s, supplied);
            var hands, links := HandsOf(w), LinksOf(s.nodes);
            && (forall e | e in hands ::
                  && (hands[e].target.Some? <==> hands[e].joint.Some?)
                  && (hands[e].joint.Some? ==>
                        && hands[e].joint.value in w.joints
                        && w.joints[hands[e].joint.value] == W.Joint(e, hands[e].target.value)))
            && (forall j | j in w.joints :: w.joints[j].owner in w.entities && w.joints[j].target in w.entities)
            && ((forall j | j in w.joints :: InHand(w.joints[j], j, hands))
                <==> forall i: nat | i < |links| && links[i].Some? :: Grasped(links, hands, i))
  {
    var w, links := RestoredWorld(s, supplied), LinksOf(s.nodes);
    var hands := HandsOf(w);
    RestoredHands(s, supplied);
    forall e | e in hands
      ensures hands[e].target.Some? <==> hands[e].joint.Some?
      ensures hands[e].joint.Some? ==>
                hands[e].joint.value in w.joints && w.joints[hands[e].joint.value] == W.Joint(e, hands[e].target.value)
    {
      GripsLive(links, |s.nodes|, e, hands[e].cooldown);
    }
    forall j | j in w.joints ensures w.joints[j].owner in w.entities && w.joints[j].target in w.entities {
      var i := JointsOnly(links, |s.nodes|, |s.nodes|, j);
    }
    GraspedExactly(links, |s.nodes|, hands);
  }

  // ---------------------------------------------------------------- as it is done

  class StableIdAllocator {
    var next: nat

    constructor (next: nat)
      ensures this.next == next
    {
      this.next := next;
    }

    method Allocate() returns (id: nat)
      modifies this
      ensures id == next == AtMost(U64_MAX, old(next) + 1)
    {
      next := MaxNat(if next < U64_MAX then next + 1 else U64_MAX, 1);
      id := next;
    }

    method Observe(value: nat)
      modifies this
      ensures next == MaxNat(old(next), value)
    {
      if value > next { next := value; }
    }
  }

  method AssignStableIds(w: Live) returns (z: Live)
    requires Placed(w) && Observed(w) <= U64_MAX
    ensures z == EnsureStableIds(w)
  {
    var allocator := new StableIdAllocator(w.issued);
    var highest := 0;
    for e := 0 to w.next
      invariant highest == Highest(w.entities, e)
    {
      if e in w.entities && w.entities[e].stableId.Some? { highest := MaxNat(highest, w.entities[e].stableId.value); }
    }
    allocator.Observe(highest);
    var given: map<Entity, nat> := map[];
    for e := 0 to w.next
      invariant allocator.next == if Rank(w.entities, e) == 0 then Observed(w)
                else AtMost(U64_MAX, Observed(w) + Rank(w.entities, e))
      invariant forall f: Entity :: f in given <==> f < e && Unnamed(w, f)
      invariant forall f | f in given :: Some(given[f]) == Identified(w, f).stableId
    {
      if e in w.entities && w.entities[e].stableId.None? {
        var id := allocator.Allocate();
        given := given[e := id];
      }
    }
    var entities := map e | e in w.entities ::
        if e in given then w.entities[e].(stableId := Some(given[e])) else w.entities[e];
    z := w.(entities := entities, issued := allocator.next);
  }

  method SpawnCanonical(n: CanonicalNode, controller: Option<nat>) returns (c: Components)
    ensures c == if n.agent.Some? && controller.Some?
                 then Animated(n, controller.value, W.Clamp(None, None, n.agent.value.clampCooldown)) else Inert(n)
  {
    c := Components(Some(n.stableId), n.placement, Some(n.velocity), Some(n.spin), n.body, n.yieldAt, n.conductivity,
        n.tags,
                    None, Some(n.rng), None, false, 0.0, Some(n.history), None, None, None, None, None);
    if n.oscillator.Some? { c := c.(oscillator := n.oscillator); }
    if n.origin.Some? { c := c.(origin := n.origin); }
    if n.dead { c := c.(dead := true); }
    if n.agent.Some? && controller.Some? {
      var a := n.agent.value;
      c := c.(marker := Some(Marker(a.generation, a.lineage, controller.value)));
      c := c.(tuning := Some(a.tuning), clamp := Some(W.Clamp(None, None, a.clampCooldown)));
      c := c.(fabricate := Some(a.fabricate), reproduction := Some(a.reproduction));
    }
  }

  lemma TakenNext(ns: seq<CanonicalNode>, i: nat, id: nat)
    requires i < |ns|
    ensures Taken(ns, i + 1, id) <==> Taken(ns, i, id) || (ns[i].agent.Some? && ns[i].stableId == id)
  {
  }

  /** `restored` finds what `IndexOf` finds. */
  ghost predicate Finds(ns: seq<CanonicalNode>, restored: map<nat, Entity>) {
    forall id {:trigger IndexOf(ns, id)} :: IndexOf(ns, id) == if id in restored then Some(restored[id]) else None
  }

  method SpawnAll(ns: seq<CanonicalNode>, controllers: set<nat>)
    returns (entities: map<Entity, Components>, restored: map<nat, Entity>, issued: nat)
    ensures entities == JoinedAll(ns, controllers, 0) && Finds(ns, restored) && issued == HighestId(ns)
  {
    entities, restored := map[], map[];
    var allocator := new StableIdAllocator(0);
    var remaining, registered := controllers, 0;
    for i := 0 to |ns|
      invariant entities == map k: nat | k < i :: Joined(ns, controllers, 0, k)
      invariant Finds(ns[..i], restored)
      invariant forall id :: id in remaining <==> id in controllers && !Taken(ns, i, id)
      invariant allocator.next == HighestId(ns[..i]) && registered == SuppliedBefore(ns, controllers, i)
    {
      assert ns[..i + 1][..i] == ns[..i];
      var n := ns[i];
      var controller: Option<nat> := None;
      ghost var before := restored;
      forall id ensures Taken(ns, i + 1, id) <==> Taken(ns, i, id) || (n.agent.Some? && n.stableId == id) {
        TakenNext(ns, i, id);
      }
      if n.agent.Some? && n.stableId in remaining {
        remaining := remaining - {n.stableId};
        controller := Some(registered);
        registered := registered + 1;
      }
      var c := SpawnCanonical(n, controller);
      entities := entities[i := c];
      restored := restored[n.stableId := i];
      allocator.Observe(n.stableId);
      forall id ensures IndexOf(ns[..i + 1], id) == if id in restored then Some(restored[id]) else None {
        assert IndexOf(ns[..i], id) == if id in before then Some(before[id]) else None;
      }
    }
    assert ns[..|ns|] == ns;
    issued := allocator.next;
  }

  method HeldNode(ns: seq<CanonicalNode>, i: nat, restored: map<nat, Entity>) returns (held: Option<Entity>)
    requires i < |ns| && Finds(ns, restored)
    ensures held == Holds(ns, i)
  {
    held := None;
    if ns[i].agent.Some? && ns[i].agent.value.clampTarget.Some? {
      var id := ns[i].agent.value.clampTarget.value;
      assert IndexOf(ns, id) == if id in restored then Some(restored[id]) else None;
      if id in restored { held := Some(restored[id]); }
    }
  }

  /** One more joint changes the hand of its owner only. */
  lemma JoinNext(ns: seq<CanonicalNode>, supplied: set<nat>, i: nat, k: nat)
    requires i < |ns| && k < |ns|
    ensures LinkAt(ns, i).None? || LinkAt(ns, i).value.owner != k ==>
              Joined(ns, supplied, i + 1, k) == Joined(ns, supplied, i, k)
    ensures var link := LinkAt(ns, i);
            link.Some? && link.value.owner == k ==>
              Joined(ns, supplied, i + 1, k) ==
              Grasping(Joined(ns, supplied, i, k), link.value.target, |ns| + Made(LinksOf(ns), i))
  {
  }

  function Grasping(c: Components, target: Entity, joint: Entity): Components {
    if c.clamp.None? then c else c.(clamp := Some(c.clamp.value.(target := Some(target), joint := Some(joint))))
  }

  /** The joints so far, and one more. */
  lemma JoinedNext(ns: seq<CanonicalNode>, supplied: set<nat>, i: nat)
    requires i < |ns|
    ensures var link, all := LinkAt(ns, i), JoinedAll(ns, supplied, i);
            JoinedAll(ns, supplied, i + 1) ==
            if link.None? then all
            else all[link.value.owner := Grasping(all[link.value.owner], link.value.target,
                |ns| + Made(LinksOf(ns), i))]
  {
    forall k: nat | k < |ns|
      ensures LinkAt(ns, i).None? || LinkAt(ns, i).value.owner != k ==>
                Joined(ns, supplied, i + 1, k) == Joined(ns, supplied, i, k)
    {
      JoinNext(ns, supplied, i, k);
    }
    if LinkAt(ns, i).Some? { JoinNext(ns, supplied, i, LinkAt(ns, i).value.owner); }
  }

  /** The joint to make for the i-th node, from what was restored under which identity. */
  method FindLink(ns: seq<CanonicalNode>, i: nat, restored: map<nat, Entity>) returns (link: Option<W.Joint>)
    requires i < |ns| && Finds(ns, restored)
    ensures link == LinkAt(ns, i)
  {
    var held := HeldNode(ns, i, restored);
    var id := ns[i].stableId;
    assert IndexOf(ns, id) == if id in restored then Some(restored[id]) else None;
    link := if id in restored && held.Some? then Some(W.Joint(restored[id], held.value)) else None;
  }

  /** What the first `i` joints come to. */
  ghost predicate JoinedTo(ns: seq<CanonicalNode>, supplied: set<nat>, i: nat, entities: map<Entity, Components>,
                           joints: map<Entity, W.Joint>, next: Entity)
    requires i <= |ns|
  {
    && entities == JoinedAll(ns, supplied, i)
    && joints == JointsFrom(LinksOf(ns), |ns|, i) && next == |ns| + Made(LinksOf(ns), i)
  }

  lemma JoinStep(ns: seq<CanonicalNode>, supplied: set<nat>, i: nat, entities: map<Entity, Components>,
                 joints: map<Entity, W.Joint>, next: Entity)
    requires i < |ns| && JoinedTo(ns, supplied, i, entities, joints, next)
    ensures var link := LinkAt(ns, i);
            if link.None? then JoinedTo(ns, supplied, i + 1, entities, joints, next)
            else
              && link.value.owner in entities
              && JoinedTo(ns, supplied, i + 1,
                          entities[link.value.owner := Grasping(entities[link.value.owner], link.value.target, next)],
                          joints[next := link.value], next + 1)
  {
    JoinedNext(ns, supplied, i);
  }

  method JoinAll(ns: seq<CanonicalNode>, ghost controllers: set<nat>, unjoined: map<Entity, Components>,
                 restored: map<nat, Entity>)
    returns (entities: map<Entity, Components>, joints: map<Entity, W.Joint>, next: Entity)
    requires unjoined == JoinedAll(ns, controllers, 0) && Finds(ns, restored)
    ensures JoinedTo(ns, controllers, |ns|, entities, joints, next)
  {
    entities, joints, next := unjoined, map[], |ns|;
    for i := 0 to |ns|
      invariant JoinedTo(ns, controllers, i, entities, joints, next)
    {
      JoinStep(ns, controllers, i, entities, joints, next);
      var link := FindLink(ns, i, restored);
      if link.Some? {
        joints := joints[next := link.value];
        entities := entities[link.value.owner := Grasping(entities[link.value.owner], link.value.target, next)];
        next := next + 1;
      }
    }
  }

  /** Nodes first, each with its controller if there is one for it; then the joints between them. */
  method RestoreSession(s: WorldSnapshot, controllers: set<nat>) returns (result: Result<Live, string>)
    ensures result == Restore(s, controllers)
  {
    if s.schema != SCHEMA_VERSION { return Failure("unsupported snapshot schema"); }
    var unjoined, restored, issued := SpawnAll(s.nodes, controllers);
    var entities, joints, next := JoinAll(s.nodes, controllers, unjoined, restored);
    result := Success(Live(s.seed, s.tick, s.fieldTime, (set c | c in s.activeChunks), entities, joints, next, issued));
  }
}
