/**
 How nodes fall apart and die: fragmentation into daughters, and the end of an agent.
 */
module Failure {
  import opened Wrappers
  import opened Energy
  import opened World

  // ---------------------------------------------------------------- daughters

  datatype DaughterDraw = DaughterDraw(tags: set<Tag>, dx: real, dy: real)

  /** What the victim's random stream makes of its fragmentation. */
  datatype SplitDraw = SplitDraw(triplet: bool, first: DaughterDraw, second: DaughterDraw, third: DaughterDraw)

  function MinInt(a: int, b: int): int {
    if a <= b then a else b
  }

  /** Two or three, as far as mass and structural capacity go. */
  function DaughterCount(n: Node, triplet: bool): Option<nat> {
    var byMass := (n.mass / MIN_DAUGHTER_MASS).Floor;
    var byStructure := (n.yieldAt / MIN_DAUGHTER_STRUCTURE).Floor;
    var maximum := MinInt(MinInt(byMass, byStructure), 3);
    if maximum < 2 then None else Some(if maximum == 3 && triplet then 3 else 2)
  }

  function Daughter(n: Node, count: nat, d: DaughterDraw): Node
    requires count > 0
  {
    var share := count as real;
    var energy := Max(n.account.energy, 0.0) / share;
    var tags := d.tags - {AgentTag, ClampCapable};
    Node(Account(energy, BLANK), energy, n.mass / share, n.yieldAt / share, n.yieldAt / share, 0.0,
         if Shelter in tags then 0.2 else 0.6, tags, n.x + d.dx, n.y + d.dy, None, false, Some(1.0), None)
  }

  function Daughters(n: Node, count: nat, x: SplitDraw): seq<Node>
    requires count == 2 || count == 3
  {
    [Daughter(n, count, x.first), Daughter(n, count, x.second)] +
    if count == 3 then [Daughter(n, count, x.third)] else []
  }

  function Divided(w: World, v: Entity, count: nat, x: SplitDraw): World
    requires v in w.nodes && (count == 2 || count == 3)
  {
    SpawnAll(Counted(Despawn(w, v), 1), Daughters(w.nodes[v], count, x))
  }

  function SplitOne(w: World, v: Entity, x: SplitDraw): World {
    if v !in w.nodes then w
    else
      match DaughterCount(w.nodes[v], x.triplet)
      case None => w
      case Some(count) => Divided(w, v, count, x)
  }

  function SplitAll(w: World, queue: seq<FragmentEntry>, draws: Entity -> SplitDraw): World {
    if queue == [] then w
    else
      var v := queue[|queue| - 1].victim;
      SplitOne(SplitAll(w, queue[..|queue| - 1], draws), v, draws(v))
  }

  function RunFragmentation(w: World, draws: Entity -> SplitDraw): World {
    SplitAll(w, w.fragments, draws).(fragments := [])
  }

  /** A node that can fragment always has daughters to divide into, and the division is exact. */
  lemma CountFits(n: Node, triplet: bool)
    ensures CanFragment(n) <==> DaughterCount(n, triplet).Some?
    ensures CanFragment(n) ==>
              var count := DaughterCount(n, triplet).value;
              && (count == 2 || count == 3)
              && n.mass >= MIN_DAUGHTER_MASS * count as real && n.yieldAt >= MIN_DAUGHTER_STRUCTURE * count as real
  {
    var byMass := (n.mass / MIN_DAUGHTER_MASS).Floor;
    var byStructure := (n.yieldAt / MIN_DAUGHTER_STRUCTURE).Floor;
    assert byMass as real <= n.mass / MIN_DAUGHTER_MASS < byMass as real + 1.0;
    assert byStructure as real <= n.yieldAt / MIN_DAUGHTER_STRUCTURE < byStructure as real + 1.0;
  }

  lemma DaughterOk(n: Node, count: nat, d: DaughterDraw)
    requires count == 2 || count == 3
    requires n.mass >= MIN_DAUGHTER_MASS * count as real && n.yieldAt >= MIN_DAUGHTER_STRUCTURE * count as real
    ensures var m := Daughter(n, count, d);
            && Newborn(m) && m.origin.None? && m.mass >= MIN_DAUGHTER_MASS && m.yieldAt >= MIN_DAUGHTER_STRUCTURE
            && m.structure == m.yieldAt && m.account.energy >= 0.0 && m.agent.None?
            && m.mass * count as real == n.mass && m.yieldAt * count as real == n.yieldAt
            && m.account.energy * count as real == Max(n.account.energy, 0.0)
  {
  }

  lemma PairTotal(a: Node, b: Node)
    ensures TotalOf([a, b]) == Add(Add(NOTHING, Weigh(a)), Weigh(b))
  {
    assert [a, b][..1] == [a] && [a][..0] == [];
    assert TotalOf([a]) == Add(TotalOf([]), Weigh(a));
  }

  lemma TripleTotal(a: Node, b: Node, c: Node)
    ensures TotalOf([a, b, c]) == Add(TotalOf([a, b]), Weigh(c))
  {
    assert [a, b, c][..2] == [a, b];
  }

  lemma EqualTotals(ns: seq<Node>, mass: real, energy: real)
    requires |ns| == 2 || |ns| == 3
    requires forall n | n in ns :: n.mass == mass && n.account.energy == energy && mass >= HEAVY
    ensures TotalOf(ns).mass == mass * |ns| as real && TotalOf(ns).energy == energy * |ns| as real
    ensures TotalOf(ns).heavy == |ns|
  {
    PairTotal(ns[0], ns[1]);
    if |ns| == 3 {
      assert ns == [ns[0], ns[1], ns[2]];
      TripleTotal(ns[0], ns[1], ns[2]);
    } else {
      assert ns == [ns[0], ns[1]];
    }
  }

  lemma DaughtersOk(n: Node, count: nat, x: SplitDraw)
    requires count == 2 || count == 3
    requires n.mass >= MIN_DAUGHTER_MASS * count as real && n.yieldAt >= MIN_DAUGHTER_STRUCTURE * count as real
    ensures |Daughters(n, count, x)| == count
    ensures forall m | m in Daughters(n, count, x) ::
              && Newborn(m) && m.origin.None? && m.mass >= MIN_DAUGHTER_MASS && m.yieldAt >= MIN_DAUGHTER_STRUCTURE
              && m.mass == n.mass / count as real && m.account.energy == Max(n.account.energy, 0.0) / count as real
  {
  }

  /** Mass and energy are divided exactly, and every daughter is above both minimums. */
  lemma DaughtersExact(n: Node, count: nat, x: SplitDraw)
    requires count == 2 || count == 3
    requires n.mass >= MIN_DAUGHTER_MASS * count as real && n.yieldAt >= MIN_DAUGHTER_STRUCTURE * count as real
    ensures var ns := Daughters(n, count, x);
            && TotalOf(ns).heavy == count
            && TotalOf(ns).mass == n.mass && TotalOf(ns).energy == Max(n.account.energy, 0.0)
  {
    DaughtersOk(n, count, x);
    EqualTotals(Daughters(n, count, x), n.mass / count as real, Max(n.account.energy, 0.0) / count as real);
  }

  /** The world without the victim, its fragmentation counted. */
  function Cleared(w: World, v: Entity): World
    requires v in w.nodes
  {
    Counted(Despawn(w, v), 1)
  }

  lemma DividedTotals(w: World, v: Entity, count: nat, x: SplitDraw)
    requires Good(w) && Divisible(w, v) && (count == 2 || count == 3)
    requires w.nodes[v].mass >= MIN_DAUGHTER_MASS * count as real
             && w.nodes[v].yieldAt >= MIN_DAUGHTER_STRUCTURE * count as real
    ensures var z := Divided(w, v, count, x);
            var before, after := Sum(w.nodes, w.next), Sum(z.nodes, z.next);
            && after.mass == before.mass && after.heavy == before.heavy + count - 1
            && after.energy == before.energy
            && after.flows == LessFlows(before.flows, FlowsOf(w.nodes[v].account.ledger))
  {
    var n := w.nodes[v];
    var ns := Daughters(n, count, x);
    DespawnGood(w, v);
    DespawnSums(w, v);
    DaughtersOk(n, count, x);
    DaughtersExact(n, count, x);
    SpawnAllSums(Cleared(w, v), ns);
    SpawnAllFlows(Cleared(w, v), ns);
  }

  lemma DividedBooks(w: World, v: Entity, count: nat, x: SplitDraw)
    requires Keyed(w) && v in w.nodes && (count == 2 || count == 3)
    ensures var z := Divided(w, v, count, x);
            && Extends(Despawn(w, v).(books := z.books), z, count)
            && z.books == Despawn(w, v).books.(splits := w.books.splits + 1)
  {
    SpawnAllExtends(Cleared(w, v), Daughters(w.nodes[v], count, x));
  }

  lemma DividedConserves(w: World, v: Entity, count: nat, x: SplitDraw)
    requires Good(w) && Divisible(w, v) && (count == 2 || count == 3)
    requires w.nodes[v].mass >= MIN_DAUGHTER_MASS * count as real
             && w.nodes[v].yieldAt >= MIN_DAUGHTER_STRUCTURE * count as real
    ensures Conserves(w, Divided(w, v, count, x))
  {
    DividedTotals(w, v, count, x);
    DividedBooks(w, v, count, x);
  }

  lemma DividedGood(w: World, v: Entity, count: nat, x: SplitDraw)
    requires Good(w) && Divisible(w, v) && (count == 2 || count == 3)
    requires w.nodes[v].mass >= MIN_DAUGHTER_MASS * count as real
             && w.nodes[v].yieldAt >= MIN_DAUGHTER_STRUCTURE * count as real
    ensures Good(Divided(w, v, count, x))
  {
    DespawnGood(w, v);
    DaughtersOk(w.nodes[v], count, x);
    var y := Cleared(w, v);
    forall e | e in y.nodes ensures HoldOk(y, e) { assert HoldOk(Despawn(w, v), e); }
    SpawnAllGood(y, Daughters(w.nodes[v], count, x));
  }

  lemma DividedLawful(w: World, v: Entity, count: nat, x: SplitDraw)
    requires Good(w) && Divisible(w, v) && (count == 2 || count == 3)
    requires w.nodes[v].mass >= MIN_DAUGHTER_MASS * count as real
             && w.nodes[v].yieldAt >= MIN_DAUGHTER_STRUCTURE * count as real
    ensures Lawful(w, Divided(w, v, count, x))
  {
    var z, y := Divided(w, v, count, x), Cleared(w, v);
    var ns := Daughters(w.nodes[v], count, x);
    DaughtersOk(w.nodes[v], count, x);
    DespawnGood(w, v);
    SpawnAllExtends(y, ns);
    forall e | e in z.nodes && e >= w.next ensures z.nodes[e].origin.None? {
      SpawnedAt(y, ns, e - w.next);
    }
  }

  /**
   A queued victim does fall apart: it and the joints on it are gone, two or three daughters
   are there instead, and nothing has happened to anyone else.
   */
  lemma SplitStep(w: World, v: Entity, x: SplitDraw)
    requires Good(w) && Divisible(w, v)
    ensures var z := SplitOne(w, v, x);
            && Sound(w, z) && z.books.splits == w.books.splits + 1
            && z.fragments == w.fragments && z.deaths == w.deaths
            && v !in z.nodes && (z.next == w.next + 2 || z.next == w.next + 3)
            && (forall e | e in w.nodes && e != v :: e in z.nodes && z.nodes[e] == w.nodes[e])
  {
    var n := w.nodes[v];
    CountFits(n, x.triplet);
    var count := DaughterCount(n, x.triplet).value;
    DividedConserves(w, v, count, x);
    DividedGood(w, v, count, x);
    DividedLawful(w, v, count, x);
    DividedBooks(w, v, count, x);
  }

  ghost predicate QueueFrom(w: World, queue: seq<FragmentEntry>) {
    && (forall i | 0 <= i < |queue| :: Divisible(w, queue[i].victim))
    && (forall i, j | 0 <= i < j < |queue| :: queue[i].victim != queue[j].victim)
  }

  /** Exactly the queued victims are gone, each counted, and nothing has happened to anyone else. */
  ghost predicate Shattered(w: World, z: World, queue: seq<FragmentEntry>) {
    && z.books.splits == w.books.splits + |queue| && w.next <= z.next
    && (forall i | 0 <= i < |queue| :: queue[i].victim !in z.nodes)
    && (forall e | e in w.nodes && !Queued(queue, e) :: e in z.nodes && z.nodes[e] == w.nodes[e])
  }

  lemma NotQueuedBefore(queue: seq<FragmentEntry>, e: Entity)
    requires queue != []
    ensures Queued(queue, e) <==> Queued(queue[..|queue| - 1], e) || queue[|queue| - 1].victim == e
  {
  }

  lemma ShatterNext(w: World, x: World, queue: seq<FragmentEntry>, draw: SplitDraw)
    requires Keyed(w) && Good(x) && queue != [] && QueueFrom(w, queue) && Shattered(w, x, queue[..|queue| - 1])
    ensures Divisible(x, queue[|queue| - 1].victim)
    ensures Shattered(w, SplitOne(x, queue[|queue| - 1].victim, draw), queue)
  {
    var front, v := queue[..|queue| - 1], queue[|queue| - 1].victim;
    assert !Queued(front, v) && Divisible(w, v);
    SplitStep(x, v, draw);
    var z := SplitOne(x, v, draw);
    forall i | 0 <= i < |queue| ensures queue[i].victim !in z.nodes {
      if i < |front| { assert front[i].victim !in x.nodes && Divisible(w, queue[i].victim); }
    }
    forall e | e in w.nodes && !Queued(queue, e) ensures e in z.nodes && z.nodes[e] == w.nodes[e] {
      NotQueuedBefore(queue, e);
    }
  }

  /** Every queued victim falls apart, whatever the ones before it left behind. */
  lemma {:induction false} SplitsStep(w: World, queue: seq<FragmentEntry>, draws: Entity -> SplitDraw)
    requires Good(w) && QueueFrom(w, queue)
    ensures Sound(w, SplitAll(w, queue, draws)) && Shattered(w, SplitAll(w, queue, draws), queue)
    ensures SplitAll(w, queue, draws).deaths == w.deaths
  {
    if queue == [] {
      StepRefl(w);
    } else {
      var front, v := queue[..|queue| - 1], queue[|queue| - 1].victim;
      var x := SplitAll(w, front, draws);
      SplitsStep(w, front, draws);
      ShatterNext(w, x, queue, draws(v));
      SplitStep(x, v, draws(v));
      SoundCompose(w, x, SplitAll(w, queue, draws));
    }
  }

  /**
   The fragmentation pass: every queued victim falls apart, all totals are conserved, and the
   queue is empty.
   */
  lemma FragmentationStep(w: World, draws: Entity -> SplitDraw)
    requires Good(w) && QueueOk(w)
    ensures var z := RunFragmentation(w, draws);
            Sound(w, z) && Shattered(w, z, w.fragments) && z.fragments == [] && z.deaths == w.deaths
  {
    SplitsStep(w, w.fragments, draws);
    var x, z := SplitAll(w, w.fragments, draws), RunFragmentation(w, draws);
    forall e | e in z.nodes ensures HoldOk(z, e) { assert HoldOk(x, e); }
    forall e | e in z.nodes ensures NodeOk(z.nodes[e]) { assert NodeOk(x.nodes[e]); }
  }

  // ---------------------------------------------------------------- victims first, daughters afterwards

  function DespawnAll(w: World, es: seq<Entity>): World {
    if es == [] then w
    else
      var x, e := DespawnAll(w, es[..|es| - 1]), es[|es| - 1];
      if e in x.nodes then Despawn(x, e) else x.(joints := Unjoined(x.joints, e))
  }

  function Counted(w: World, more: nat): World {
    w.(books := w.books.(splits := w.books.splits + more))
  }

  /** The victims are despawned together, counted, and only then the daughters spawned. */
  function Batch(w: World, victims: seq<Entity>, daughters: seq<Node>): World {
    SpawnAll(Counted(DespawnAll(w, victims), |victims|), daughters)
  }

  function Splits(w: World, f: FragmentEntry, draws: Entity -> SplitDraw): Option<nat> {
    if f.victim !in w.nodes then None else DaughterCount(w.nodes[f.victim], draws(f.victim).triplet)
  }

  function VictimsOf(w: World, queue: seq<FragmentEntry>, draws: Entity -> SplitDraw): seq<Entity> {
    if queue == [] then []
    else
      var f := queue[|queue| - 1];
      VictimsOf(w, queue[..|queue| - 1], draws) + if Splits(w, f, draws).Some? then [f.victim] else []
  }

  function DaughtersOf(w: World, queue: seq<FragmentEntry>, draws: Entity -> SplitDraw): seq<Node> {
    if queue == [] then []
    else
      var f := queue[|queue| - 1];
      DaughtersOf(w, queue[..|queue| - 1], draws) +
      match Splits(w, f, draws)
      case None => []
      case Some(count) => Daughters(w.nodes[f.victim], count, draws(f.victim))
  }

  lemma {:induction false} SpawnConcat(w: World, ns: seq<Node>, ms: seq<Node>)
    ensures SpawnAll(w, ns + ms) == SpawnAll(SpawnAll(w, ns), ms)
  {
    if ms == [] {
      assert ns + ms == ns;
    } else {
      SpawnConcat(w, ns, ms[..|ms| - 1]);
      assert (ns + ms)[..|ns + ms| - 1] == ns + ms[..|ms| - 1];
    }
  }

  lemma {:induction false} DespawnCommutes(w: World, ns: seq<Node>, e: Entity)
    requires Keyed(w) && e in w.nodes
    ensures e in SpawnAll(w, ns).nodes && SpawnAll(w, ns).nodes[e] == w.nodes[e]
    ensures Despawn(SpawnAll(w, ns), e) == SpawnAll(Despawn(w, e), ns)
  {
    if ns != [] {
      var x, n := SpawnAll(w, ns[..|ns| - 1]), ns[|ns| - 1];
      DespawnCommutes(w, ns[..|ns| - 1], e);
      SpawnAllExtends(w, ns[..|ns| - 1]);
      assert (x.nodes[x.next := n] - {e}) == (x.nodes - {e})[x.next := n];
    }
  }

  lemma {:induction false} DespawnAllKeeps(w: World, es: seq<Entity>, e: Entity)
    requires Keyed(w) && e in w.nodes && e !in es
    ensures Keyed(DespawnAll(w, es)) && e in DespawnAll(w, es).nodes && DespawnAll(w, es).nodes[e] == w.nodes[e]
  {
    if es != [] { DespawnAllKeeps(w, es[..|es| - 1], e); }
  }

  lemma {:induction false} VictimsQueued(w: World, queue: seq<FragmentEntry>, draws: Entity -> SplitDraw)
    ensures forall e | e in VictimsOf(w, queue, draws) :: Queued(queue, e)
  {
    if queue != [] {
      VictimsQueued(w, queue[..|queue| - 1], draws);
      forall e | e in VictimsOf(w, queue, draws) ensures Queued(queue, e) { NotQueuedBefore(queue, e); }
    }
  }

  ghost predicate Distinct(es: seq<Entity>) {
    forall i, j | 0 <= i < j < |es| :: es[i] != es[j]
  }

  lemma {:induction false} CountedSpawn(w: World, ns: seq<Node>)
    ensures Counted(SpawnAll(w, ns), 1) == SpawnAll(Counted(w, 1), ns) && SpawnAll(w, ns).books == w.books
  {
    if ns != [] { CountedSpawn(w, ns[..|ns| - 1]); }
  }

  lemma DespawnCounted(x: World, e: Entity, splits: nat)
    requires e in x.nodes
    ensures Despawn(x.(books := x.books.(splits := splits)), e)
            == Despawn(x, e).(books := Despawn(x, e).books.(splits := splits))
  {
  }

  lemma DespawnNext(w: World, victims: seq<Entity>, v: Entity)
    requires Keyed(w) && v in w.nodes && v !in victims
    ensures var base := Counted(DespawnAll(w, victims), |victims|);
            && Keyed(base) && v in base.nodes && base.nodes[v] == w.nodes[v]
            && Counted(DespawnAll(w, victims + [v]), |victims| + 1) == Counted(Despawn(base, v), 1)
  {
    DespawnAllKeeps(w, victims, v);
    assert (victims + [v])[..|victims|] == victims;
    var gone := DespawnAll(w, victims);
    DespawnCounted(gone, v, gone.books.splits + |victims|);
  }

  lemma SpawnedThenDivided(base: World, daughters: seq<Node>, v: Entity, ns: seq<Node>)
    requires Keyed(base) && v in base.nodes
    ensures v in SpawnAll(base, daughters).nodes && SpawnAll(base, daughters).nodes[v] == base.nodes[v]
    ensures SpawnAll(Counted(Despawn(base, v), 1), daughters + ns)
            == SpawnAll(Counted(Despawn(SpawnAll(base, daughters), v), 1), ns)
  {
    var less := Despawn(base, v);
    DespawnCommutes(base, daughters, v);
    CountedSpawn(less, daughters);
    SpawnConcat(Counted(less, 1), daughters, ns);
  }

  /** One more victim and its daughters at the end of the batch are one more fragmentation after it. */
  lemma BatchNext(w: World, victims: seq<Entity>, daughters: seq<Node>, v: Entity, count: nat, x: SplitDraw)
    requires Keyed(w) && v in w.nodes && v !in victims && (count == 2 || count == 3)
    ensures v in Batch(w, victims, daughters).nodes && Batch(w, victims, daughters).nodes[v] == w.nodes[v]
    ensures Batch(w, victims + [v], daughters + Daughters(w.nodes[v], count, x))
            == Divided(Batch(w, victims, daughters), v, count, x)
  {
    DespawnNext(w, victims, v);
    SpawnedThenDivided(Counted(DespawnAll(w, victims), |victims|), daughters, v, Daughters(w.nodes[v], count, x));
  }

  /** Fragmenting the queue one victim at a time comes to the same as doing it in one batch. */
  lemma {:induction false} BatchIsSplitAll(w: World, queue: seq<FragmentEntry>, draws: Entity -> SplitDraw)
    requires Keyed(w) && QueueFrom(w, queue)
    ensures SplitAll(w, queue, draws) == Batch(w, VictimsOf(w, queue, draws), DaughtersOf(w, queue, draws))
  {
    if queue != [] {
      var front, v := queue[..|queue| - 1], queue[|queue| - 1].victim;
      var victims, daughters := VictimsOf(w, front, draws), DaughtersOf(w, front, draws);
      BatchIsSplitAll(w, front, draws);
      VictimsQueued(w, front, draws);
      assert Divisible(w, v) && !Queued(front, v);
      CountFits(w.nodes[v], draws(v).triplet);
      BatchNext(w, victims, daughters, v, DaughterCount(w.nodes[v], draws(v).triplet).value, draws(v));
    }
  }

  /** Neither despawning nor spawning looks at the queue. */
  lemma {:induction false} BatchIgnoresQueue(w: World, victims: seq<Entity>, daughters: seq<Node>)
    ensures Batch(w.(fragments := []), victims, daughters) == Batch(w, victims, daughters).(fragments := [])
    decreases |victims|, |daughters|
  {
    if daughters != [] {
      BatchIgnoresQueue(w, victims, daughters[..|daughters| - 1]);
    } else if victims != [] {
      BatchIgnoresQueue(w, victims[..|victims| - 1], daughters);
    }
  }

  function Untouched(joints: map<Entity, Joint>, es: seq<Entity>): map<Entity, Joint> {
    map j | j in joints && joints[j].owner !in es && joints[j].target !in es :: joints[j]
  }

  lemma UntouchedNext(joints: map<Entity, Joint>, es: seq<Entity>, e: Entity)
    ensures Unjoined(Untouched(joints, es), e) == Untouched(joints, es + [e])
  {
  }

  lemma NodesNext(nodes: map<Entity, Node>, es: seq<Entity>, e: Entity)
    ensures nodes - (set f | f in es) - {e} == nodes - (set f | f in es + [e])
  {
  }

  /**
   Despawning one by one removes exactly the given nodes, and the joints on any of them, even
   where some are given twice or are not there.
   */
  lemma {:induction false} DespawnAllIs(w: World, es: seq<Entity>)
    ensures DespawnAll(w, es).nodes == w.nodes - (set e | e in es)
    ensures DespawnAll(w, es).joints == Untouched(w.joints, es)
    ensures var z := DespawnAll(w, es); z == w.(nodes := z.nodes, joints := z.joints, books := z.books)
  {
    if es == [] {
      assert Untouched(w.joints, es) == w.joints;
    } else {
      var front, e := es[..|es| - 1], es[|es| - 1];
      assert es == front + [e];
      DespawnAllIs(w, front);
      UntouchedNext(w.joints, front, e);
      NodesNext(w.nodes, front, e);
    }
  }

  // ---------------------------------------------------------------- deaths

  /** An agent's identity ends; its matter stays. */
  function Corpse(n: Node): Node {
    n.(tags := n.tags - {AgentTag, ClampCapable}, agent := None, dead := true)
  }

  function DieOne(w: World, e: Entity): World {
    if e !in w.nodes then w
    else SetNode(w, e, Corpse(w.nodes[e])).(joints := Unjoined(w.joints, e))
  }

  function DieAll(w: World, es: seq<Entity>): World {
    if es == [] then w else DieOne(DieAll(w, es[..|es| - 1]), es[|es| - 1])
  }

  function RunDeaths(w: World): World {
    DieAll(w.(deaths := []), w.deaths)
  }

  lemma DieStep(w: World, e: Entity)
    requires Good(w)
    ensures Sound(w, DieOne(w, e))
    ensures DieOne(w, e).fragments == w.fragments && DieOne(w, e).deaths == w.deaths
  {
    StepRefl(w);
    if e in w.nodes {
      var n := w.nodes[e];
      assert NodeOk(n) && HoldOk(w, e);
      var x := SetNode(w, e, Corpse(n));
      SetShifts(w, e, Corpse(n));
      SetKeepsNodes(w, e, Corpse(n));
      SetLawful(w, e, Corpse(n));
      DeathLinks(w, e);
    }
  }

  lemma DeathLinks(w: World, e: Entity)
    requires JointsLinked(w) && e in w.nodes
    ensures JointsLinked(DieOne(w, e))
  {
    var z := DieOne(w, e);
    forall f | f in z.nodes ensures HoldOk(z, f) { assert HoldOk(w, f); }
  }

  lemma {:induction false} DeathsAllStep(w: World, es: seq<Entity>)
    requires Good(w)
    ensures Sound(w, DieAll(w, es))
    ensures DieAll(w, es).fragments == w.fragments && DieAll(w, es).deaths == w.deaths
  {
    if es == [] {
      StepRefl(w);
    } else {
      DeathsAllStep(w, es[..|es| - 1]);
      var x := DieAll(w, es[..|es| - 1]);
      DieStep(x, es[|es| - 1]);
      SoundCompose(w, x, DieAll(w, es));
    }
  }

  /** Who is on the list dies, whatever energy it has been credited with since; nobody else does. */
  lemma {:induction false} DeathsExactly(w: World, es: seq<Entity>, e: Entity)
    requires e in w.nodes
    ensures e in DieAll(w, es).nodes
    ensures IsAgent(DieAll(w, es), e) <==> IsAgent(w, e) && e !in es
    ensures DieAll(w, es).nodes[e].dead <==> w.nodes[e].dead || e in es
    ensures e in es ==> forall j | j in DieAll(w, es).joints :: !Touches(DieAll(w, es).joints[j], e)
  {
    if es != [] {
      DeathsExactly(w, es[..|es| - 1], e);
      assert es == es[..|es| - 1] + [es[|es| - 1]];
    }
  }
}
