/**
 Chunks in coordinates: which squares are active around the agents, what stands in them, and
 what goes when they are left behind.
 */
module Landscape {
  import opened Wrappers
  import opened Energy
  import opened World
  import opened Failure
  import opened Lineage
  import opened Genesis

  // ---------------------------------------------------------------- squares

  /** The square of a chunk: 32 units to a side. */
  predicate InSquare(c: Chunk, x: real, y: real) {
    && c.x as real * 32.0 <= x < (c.x + 1) as real * 32.0
    && c.y as real * 32.0 <= y < (c.y + 1) as real * 32.0
  }

  /** The chunk and the eight around it, in one square. */
  predicate Around(c: Chunk, x: real, y: real) {
    && (c.x - 1) as real * 32.0 <= x < (c.x + 2) as real * 32.0
    && (c.y - 1) as real * 32.0 <= y < (c.y + 2) as real * 32.0
  }

  lemma FloorIs(x: real, k: int)
    ensures (x / 32.0).Floor == k <==> k as real * 32.0 <= x < (k + 1) as real * 32.0
  {
    var q := x / 32.0;
    assert q * 32.0 == x;
    assert (k + 1) as real == k as real + 1.0;
  }

  lemma FloorNear(x: real, k: int)
    ensures -1 <= k - (x / 32.0).Floor <= 1 <==> (k - 1) as real * 32.0 <= x < (k + 2) as real * 32.0
  {
    var f := (x / 32.0).Floor;
    FloorIs(x, f);
    FloorIs(x, k - 1);
    FloorIs(x, k);
    FloorIs(x, k + 1);
  }

  lemma SquareIs(c: Chunk, x: real, y: real)
    ensures ChunkAt(x, y) == c <==> InSquare(c, x, y)
  {
    FloorIs(x, c.x);
    FloorIs(y, c.y);
  }

  lemma AroundIs(c: Chunk, x: real, y: real)
    ensures Near(ChunkAt(x, y), c) <==> Around(c, x, y)
  {
    FloorNear(x, c.x);
    FloorNear(y, c.y);
  }

  // ---------------------------------------------------------------- what is active

  ghost predicate AgentAround(w: World, c: Chunk) {
    exists e: Entity :: IsAgent(w, e) && Around(c, w.nodes[e].x, w.nodes[e].y)
  }

  lemma NearIsAround(w: World, c: Chunk)
    requires Keyed(w)
    ensures NearAgent(w, c, w.next) <==> AgentAround(w, c)
  {
    if NearAgent(w, c, w.next) {
      var e: Entity :| e < w.next && IsAgent(w, e) && Near(Center(w.nodes[e]), c);
      AroundIs(c, w.nodes[e].x, w.nodes[e].y);
    }
    if AgentAround(w, c) {
      var e: Entity :| IsAgent(w, e) && Around(c, w.nodes[e].x, w.nodes[e].y);
      AroundIs(c, w.nodes[e].x, w.nodes[e].y);
      assert e < w.next && Near(Center(w.nodes[e]), c);
    }
  }

  /**
   After streaming a chunk is active if and only if some living agent stands in its square or in
   one of the eight around it.
   */
  lemma ActiveExactly(w: World, scatter: Scatter, c: Chunk)
    requires Good(w) && ChunksOk(w)
    ensures c in Stream(w, scatter).chunks <==>
            exists e: Entity :: IsAgent(w, e) && Around(c, w.nodes[e].x, w.nodes[e].y)
  {
    DesiredIs(w, w.next, c);
    NearIsAround(w, c);
  }

  // ---------------------------------------------------------------- what goes

  /** A chunk that was active, and is not any more. */
  predicate Abandoned(w: World, z: World, c: Chunk) {
    c in w.chunks && c !in z.chunks
  }

  /** The chunk a node belongs to: its origin, or else the square it lies in. */
  predicate BelongsTo(n: Node, c: Chunk) {
    if n.origin.Some? then n.origin.value == c else InSquare(c, n.x, n.y)
  }

  /**
   Streaming takes away exactly what belongs to the chunks that are left behind, and no agent;
   whatever stays is as it was.
   */
  lemma GoneExactly(w: World, scatter: Scatter, e: Entity)
    requires Good(w) && e in w.nodes
    ensures var z := Stream(w, scatter);
            && (e !in z.nodes <==>
                w.nodes[e].agent.None? && exists c :: Abandoned(w, z, c) && BelongsTo(w.nodes[e], c))
            && (e in z.nodes ==> z.nodes[e] == w.nodes[e])
  {
    var n, z := w.nodes[e], Stream(w, scatter);
    StreamedOld(w, scatter, e);
    SquareIs(Coordinate(n), n.x, n.y);
    if e !in z.nodes { assert Abandoned(w, z, Coordinate(n)) && BelongsTo(n, Coordinate(n)); }
    if c :| Abandoned(w, z, c) && BelongsTo(n, c) { SquareIs(c, n.x, n.y); }
  }

  // ---------------------------------------------------------------- what comes

  predicate HalfAtMost(o: Offset) {
    -0.5 <= o.dx <= 0.5 && -0.5 <= o.dy <= 0.5
  }

  /** The five kinds of terrain of a chunk, by their place in the plan. */
  predicate IsTerrain(n: Node, c: Chunk, k: nat) {
    && n.origin == Some(c) && n.agent.None? && !n.dead
    && match k
       case 0 => n.tags == {EnergyConvertible} && n.mass == 1.0 && n.structure == 8.0 && n.account.energy == 6.0
       case 1 => n.tags == {EnergyConvertible} && n.mass == 1.0 && n.structure == 8.0 && n.account.energy == 6.0
       case 2 => n.tags == {ThermalVent} && n.mass == 2.0 && n.structure == 10.0 && n.account.energy == 4.0
       case 3 => n.tags == {VolatileTrap} && n.mass == 1.5 && n.structure == 8.0 && n.account.energy == 12.0
       case 4 => n.tags == {Shelter} && n.mass == 1.0 && n.structure == 14.0 && n.account.energy == 2.0
       case _ => false
  }

  lemma TerrainIs(c: Chunk, scatter: Scatter, k: nat)
    requires k < 5
    ensures IsTerrain(Terrain(c, scatter)[k], c, k)
    ensures HalfAtMost(scatter(c, k)) ==> InSquare(c, Terrain(c, scatter)[k].x, Terrain(c, scatter)[k].y)
  {
    var n := Terrain(c, scatter)[k];
    if k == 0 || k == 1 || k == 2 || k == 3 || k == 4 {
      assert (c.x + 1) as real == c.x as real + 1.0 && (c.y + 1) as real == c.y as real + 1.0;
    }
  }

  lemma {:induction false} PlanAt(cs: seq<Chunk>, scatter: Scatter, j: nat, k: nat)
    requires j < |cs| && k < 5
    ensures 5 * j + k < |TerrainFor(cs, scatter)| && TerrainFor(cs, scatter)[5 * j + k] == Terrain(cs[j], scatter)[k]
  {
    if j < |cs| - 1 { PlanAt(cs[..|cs| - 1], scatter, j, k); }
  }

  /** New terrain is there after streaming, and is not taken away at once. */
  lemma PlantedStays(w: World, scatter: Scatter, i: nat)
    requires Good(w) && i < |NewTerrain(w, scatter)|
    ensures var z := Stream(w, scatter);
            w.next + i in z.nodes && z.nodes[w.next + i] == NewTerrain(w, scatter)[i]
  {
    var ns, inactive := NewTerrain(w, scatter), w.chunks - Desired(w);
    StreamedIn(w, ns, Ordered(Desired(w) - w.chunks), scatter);
    LeavingAre(w, inactive, w.next);
    StreamOutAllStep(StreamIn(w, ns), LeavingBelow(w, inactive, w.next));
    SpawnedAt(w, ns, i);
    StreamedNodes(w, scatter);
  }

  /** The terrain of that place in the plan is there, in its own square if it is not scattered too far. */
  predicate Stands(z: World, e: Entity, c: Chunk, k: nat, scattered: Offset) {
    && e in z.nodes && IsTerrain(z.nodes[e], c, k)
    && (HalfAtMost(scattered) ==> InSquare(c, z.nodes[e].x, z.nodes[e].y))
  }

  lemma PlantedNode(w: World, scatter: Scatter, j: nat, k: nat)
    requires Good(w) && j < |Ordered(Desired(w) - w.chunks)| && k < 5
    ensures var z, c, e := Stream(w, scatter), Ordered(Desired(w) - w.chunks)[j], w.next + 5 * j + k;
            Stands(z, e, c, k, scatter(c, k)) && e in OriginSet(z, c)
  {
    var cs := Ordered(Desired(w) - w.chunks);
    PlanAt(cs, scatter, j, k);
    PlantedStays(w, scatter, 5 * j + k);
    TerrainIs(cs[j], scatter, k);
  }

  /** Five consecutive numbers. */
  function Five(b: Entity): set<Entity> {
    {b, b + 1, b + 2, b + 3, b + 4}
  }

  lemma PlantedOnly(w: World, scatter: Scatter, j: nat)
    requires Good(w) && ChunksOk(w) && j < |Ordered(Desired(w) - w.chunks)|
    ensures OriginSet(Stream(w, scatter), Ordered(Desired(w) - w.chunks)[j]) <= Five(w.next + 5 * j)
  {
    var z, novel := Stream(w, scatter), Desired(w) - w.chunks;
    var c := Ordered(novel)[j];
    OrderedHas(novel, c);
    NoneBefore(w, c);
    forall e | e in OriginSet(z, c) ensures e in Five(w.next + 5 * j) {
      StreamedStays(w, scatter, e);
      PlantedPlace(w, novel, scatter, j, e);
    }
  }

  /**
   A chunk that becomes active is planted: five nodes, one of each place in the plan, and nothing
   else belongs to it; each lies in its own square, if it is not scattered by more than half a unit.
   */
  lemma PlantedExactly(w: World, scatter: Scatter, c: Chunk) returns (b: Entity)
    requires Good(w) && ChunksOk(w) && c in Stream(w, scatter).chunks && c !in w.chunks
    ensures var z := Stream(w, scatter);
            && w.next <= b && OriginSet(z, c) == Five(b)
            && forall k: nat | k < 5 :: Stands(z, b + k, c, k, scatter(c, k))
  {
    var novel := Desired(w) - w.chunks;
    OrderedHas(novel, c);
    var j: nat :| j < |Ordered(novel)| && Ordered(novel)[j] == c;
    b := w.next + 5 * j;
    forall k: nat | k < 5 ensures Stands(Stream(w, scatter), b + k, c, k, scatter(c, k)) {
      PlantedNode(w, scatter, j, k);
    }
    PlantedOnly(w, scatter, j);
    PlantedAll(w, scatter, j);
  }

  lemma PlantedAll(w: World, scatter: Scatter, j: nat)
    requires Good(w) && j < |Ordered(Desired(w) - w.chunks)|
    ensures Five(w.next + 5 * j) <= OriginSet(Stream(w, scatter), Ordered(Desired(w) - w.chunks)[j])
  {
    forall e | e in Five(w.next + 5 * j)
      ensures e in OriginSet(Stream(w, scatter), Ordered(Desired(w) - w.chunks)[j])
    {
      PlantedNode(w, scatter, j, e - w.next - 5 * j);
    }
  }

  lemma NoneBefore(w: World, c: Chunk)
    requires ChunksOk(w) && c !in w.chunks
    ensures OriginSet(w, c) == {}
  {
  }

  // ---------------------------------------------------------------- the first population

  lemma {:induction false} OrderedSize(s: set<Chunk>)
    ensures |Ordered(s)| == |s|
    decreases |s|
  {
    if s != {} {
      HasFirst(s);
      var c :| First(s, c);
      OrderedFrom(s, c);
      OrderedSize(s - {c});
    }
  }

  lemma DisjointSize<T>(a: set<T>, b: set<T>)
    requires a !! b
    ensures |a + b| == |a| + |b|
  {
  }

  lemma OneMore(x: nat, y: nat)
    ensures (x + 1) * y == x * y + y
  {
  }

  lemma {:induction false} GridSize(x: nat, y: nat)
    ensures |Grid(x, y)| == x * y
  {
    if x == 0 {
      assert Grid(x, y) == {};
    } else {
      GridSize(x - 1, y);
      ColumnSize(x - 1, y);
      GridNext(x - 1, y);
      DisjointSize(Grid(x - 1, y), Column(x - 1, y));
      OneMore(x - 1, y);
    }
  }

  lemma GridNext(x: nat, y: nat)
    ensures Grid(x + 1, y) == Grid(x, y) + Column(x, y) && Grid(x, y) !! Column(x, y)
  {
  }

  function Column(i: int, y: nat): set<Chunk> {
    set j: int | 0 <= j < y :: Chunk(i, j)
  }

  lemma {:induction false} ColumnSize(i: int, y: nat)
    ensures |Column(i, y)| == y
  {
    if y == 0 {
      assert Column(i, y) == {};
    } else {
      ColumnSize(i, y - 1);
      assert Column(i, y) == Column(i, y - 1) + {Chunk(i, y - 1)};
    }
  }

  lemma {:induction false} AgentsTotal(cs: seq<Chunk>, places: Scatter)
    ensures var ns := AgentsFor(cs, places);
            && |ns| == 4 * |cs|
            && TotalOf(ns).energy == 80.0 * |cs| as real && TotalOf(ns).mass == 32.0 * |cs| as real
            && forall n | n in ns :: n.agent.Some? && n.origin.None?
  {
    if cs != [] {
      var front, c := cs[..|cs| - 1], cs[|cs| - 1];
      AgentsTotal(front, places);
      var four := [ChunkAgent(c, places(c, 0)), ChunkAgent(c, places(c, 1)), ChunkAgent(c, places(c, 2)),
                   ChunkAgent(c, places(c, 3))];
      TotalFour(AgentsFor(front, places), four);
    }
  }

  lemma TotalMore(ns: seq<Node>, n: Node)
    ensures TotalOf(ns + [n]).energy == TotalOf(ns).energy + n.account.energy
    ensures TotalOf(ns + [n]).mass == TotalOf(ns).mass + n.mass
  {
    assert (ns + [n])[..|ns|] == ns;
  }

  lemma TotalFour(ns: seq<Node>, four: seq<Node>)
    requires |four| == 4 && forall n | n in four :: n.account.energy == 20.0 && n.mass == 8.0
    ensures TotalOf(ns + four).energy == TotalOf(ns).energy + 80.0 && TotalOf(ns + four).mass == TotalOf(ns).mass + 32.0
  {
    assert four[0] in four && four[1] in four && four[2] in four && four[3] in four;
    var a := ns + [four[0]];
    var b := a + [four[1]];
    var c := b + [four[2]];
    TotalMore(ns, four[0]);
    TotalMore(a, four[1]);
    TotalMore(b, four[2]);
    TotalMore(c, four[3]);
    assert ns + four == c + [four[3]];
  }

  lemma {:induction false} TerrainTotal(cs: seq<Chunk>, scatter: Scatter)
    ensures var ns := TerrainFor(cs, scatter);
            TotalOf(ns).energy == 30.0 * |cs| as real && TotalOf(ns).mass == 6.5 * |cs| as real
  {
    if cs != [] {
      TerrainTotal(cs[..|cs| - 1], scatter);
      TotalFive(TerrainFor(cs[..|cs| - 1], scatter), cs[|cs| - 1], scatter);
    }
  }

  lemma TotalFive(ns: seq<Node>, c: Chunk, scatter: Scatter)
    ensures var all := TotalOf(ns + Terrain(c, scatter));
            all.energy == TotalOf(ns).energy + 30.0 && all.mass == TotalOf(ns).mass + 6.5
  {
    var five := Terrain(c, scatter);
    PlanWeights(c, scatter);
    FiveWeights(ns, five);
  }

  lemma PlanWeights(c: Chunk, scatter: Scatter)
    ensures var five := Terrain(c, scatter);
            && |five| == 5
            && five[0].account.energy + five[1].account.energy + five[2].account.energy + five[3].account.energy
               + five[4].account.energy == 30.0
            && five[0].mass + five[1].mass + five[2].mass + five[3].mass + five[4].mass == 6.5
  {
    TerrainIs(c, scatter, 0);
    TerrainIs(c, scatter, 1);
    TerrainIs(c, scatter, 2);
    TerrainIs(c, scatter, 3);
    TerrainIs(c, scatter, 4);
  }

  lemma FiveWeights(ns: seq<Node>, five: seq<Node>)
    requires |five| == 5
    ensures TotalOf(ns + five).energy ==
            TotalOf(ns).energy + (five[0].account.energy + five[1].account.energy + five[2].account.energy
                                  + five[3].account.energy + five[4].account.energy)
    ensures TotalOf(ns + five).mass ==
            TotalOf(ns).mass + (five[0].mass + five[1].mass + five[2].mass + five[3].mass + five[4].mass)
  {
    var a := ns + [five[0]];
    var b := a + [five[1]];
    var c := b + [five[2]];
    var d := c + [five[3]];
    TotalMore(ns, five[0]);
    TotalMore(a, five[1]);
    TotalMore(b, five[2]);
    TotalMore(c, five[3]);
    TotalMore(d, five[4]);
    assert ns + five == d + [five[4]];
  }

  /** Four agents and five terrain nodes for each of these chunks, the agents numbered first. */
  ghost predicate Populated(w: World, chunks: nat) {
    && w.next == 9 * chunks
    && (forall e: Entity :: IsAgent(w, e) <==> e < 4 * chunks)
    && (forall e: Entity :: e in w.nodes && w.nodes[e].origin.Some? <==> 4 * chunks <= e < 9 * chunks)
    && w.books.streamed == Streamed(110.0 * chunks as real, 0.0, 38.5 * chunks as real, 0.0)
  }

  lemma Settlement(cs: seq<Chunk>, places: Scatter, scatter: Scatter)
    ensures Populated(StreamIn(StreamIn(EMPTY_WORLD, AgentsFor(cs, places)), TerrainFor(cs, scatter)), |cs|)
  {
    PeopledNodes(cs, places);
    GrownNodes(StreamIn(EMPTY_WORLD, AgentsFor(cs, places)), cs, scatter);
    SeededBooks(cs, places, scatter);
  }

  lemma SameSettlement(w: World, chunks: set<Chunk>, n: nat)
    requires Populated(w, n)
    ensures Populated(w.(chunks := chunks), n)
  {
    var z := w.(chunks := chunks);
    forall e: Entity ensures IsAgent(z, e) <==> e < 4 * n { assert IsAgent(w, e) <==> e < 4 * n; }
  }

  /**
   A seeded grid: each chunk has four agents and its five terrain nodes, 110 units of energy and
   38.5 of mass; the agents are numbered first.
   */
  lemma SeededExactly(x: nat, y: nat, places: Scatter, scatter: Scatter)
    ensures Populated(SeedWorld(x, y, places, scatter), x * y)
    ensures forall c :: c in SeedWorld(x, y, places, scatter).chunks <==> 0 <= c.x < x && 0 <= c.y < y
  {
    var cs := Ordered(Grid(x, y));
    OrderedSize(Grid(x, y));
    GridSize(x, y);
    Settlement(cs, places, scatter);
    SameSettlement(StreamIn(StreamIn(EMPTY_WORLD, AgentsFor(cs, places)), TerrainFor(cs, scatter)), Grid(x, y), x * y);
  }

  /** An agent is placed in the square of its chunk; whoever arrives later, where it was put. */
  lemma ArrivesInPlace(w: World, c: Chunk, place: Offset, x: real, y: real)
    requires Keyed(w)
    ensures var n := ChunkAgent(c, place);
            0.0 <= place.dx < 32.0 && 0.0 <= place.dy < 32.0 ==> InSquare(c, n.x, n.y)
    ensures var z := SpawnAgent(w, x, y);
            && z.next == w.next + 1 && z.nodes.Keys == w.nodes.Keys + {w.next}
            && (forall e | e in w.nodes :: z.nodes[e] == w.nodes[e])
            && IsAgent(z, w.next) && z.nodes[w.next].x == x && z.nodes[w.next].y == y
            && z.nodes[w.next].account.energy == 20.0 && z.nodes[w.next].mass == 8.0 && Held(z, w.next).None?
  {
    assert (c.x + 1) as real == c.x as real + 1.0 && (c.y + 1) as real == c.y as real + 1.0;
    SpawnAllExtends(w, [GenesisAgent(x, y)]);
    SpawnedAt(w, [GenesisAgent(x, y)], 0);
  }

  lemma SeededBooks(cs: seq<Chunk>, places: Scatter, scatter: Scatter)
    ensures StreamIn(StreamIn(EMPTY_WORLD, AgentsFor(cs, places)), TerrainFor(cs, scatter)).books.streamed ==
            Streamed(110.0 * |cs| as real, 0.0, 38.5 * |cs| as real, 0.0)
  {
    AgentsTotal(cs, places);
    TerrainTotal(cs, scatter);
  }

  lemma StreamInAt(w: World, ns: seq<Node>, e: Entity)
    requires Keyed(w) && w.next <= e < w.next + |ns|
    ensures e in StreamIn(w, ns).nodes && StreamIn(w, ns).nodes[e] == ns[e - w.next]
  {
    SpawnedAt(w, ns, e - w.next);
  }

  lemma PeopledAt(cs: seq<Chunk>, places: Scatter, e: Entity)
    ensures var z := StreamIn(EMPTY_WORLD, AgentsFor(cs, places));
            && (e in z.nodes <==> e < 4 * |cs|)
            && (e in z.nodes ==> z.nodes[e].agent.Some? && z.nodes[e].origin.None?)
  {
    var agents := AgentsFor(cs, places);
    AgentsTotal(cs, places);
    EmptyOk();
    StreamInAdds(EMPTY_WORLD, agents);
    if e < 4 * |cs| {
      StreamInAt(EMPTY_WORLD, agents, e);
      assert agents[e] in agents;
    }
  }

  lemma PeopledNodes(cs: seq<Chunk>, places: Scatter)
    ensures var z := StreamIn(EMPTY_WORLD, AgentsFor(cs, places));
            && Keyed(z) && z.next == 4 * |cs| && (forall e: Entity :: IsAgent(z, e) <==> e < 4 * |cs|)
            && forall e | e in z.nodes :: z.nodes[e].origin.None?
  {
    var agents := AgentsFor(cs, places);
    var z := StreamIn(EMPTY_WORLD, agents);
    AgentsTotal(cs, places);
    EmptyOk();
    SpawnAllExtends(EMPTY_WORLD, agents);
    StreamInAdds(EMPTY_WORLD, agents);
    forall e: Entity ensures IsAgent(z, e) <==> e < 4 * |cs| { PeopledAt(cs, places, e); }
    forall e | e in z.nodes ensures z.nodes[e].origin.None? { PeopledAt(cs, places, e); }
  }

  lemma GrownAt(w: World, cs: seq<Chunk>, scatter: Scatter, e: Entity)
    requires Keyed(w) && forall f | f in w.nodes :: w.nodes[f].origin.None?
    ensures var z := StreamIn(w, TerrainFor(cs, scatter));
            && (IsAgent(z, e) <==> IsAgent(w, e))
            && (e in z.nodes && z.nodes[e].origin.Some? <==> w.next <= e < w.next + 5 * |cs|)
  {
    var ns := TerrainFor(cs, scatter);
    StreamInAdds(w, ns);
    if w.next <= e < w.next + 5 * |cs| {
      StreamInAt(w, ns, e);
      TerrainAt(cs, scatter, e - w.next);
      PlanKind(cs, scatter, e - w.next);
    }
  }

  lemma GrownNodes(w: World, cs: seq<Chunk>, scatter: Scatter)
    requires Keyed(w) && forall e | e in w.nodes :: w.nodes[e].origin.None?
    ensures var z := StreamIn(w, TerrainFor(cs, scatter));
            && z.next == w.next + 5 * |cs|
            && (forall e: Entity :: IsAgent(z, e) <==> IsAgent(w, e))
            && (forall e: Entity :: e in z.nodes && z.nodes[e].origin.Some? <==> w.next <= e < w.next + 5 * |cs|)
  {
    StreamInAdds(w, TerrainFor(cs, scatter));
    forall e: Entity
      ensures var z := StreamIn(w, TerrainFor(cs, scatter));
              && (IsAgent(z, e) <==> IsAgent(w, e))
              && (e in z.nodes && z.nodes[e].origin.Some? <==> w.next <= e < w.next + 5 * |cs|)
    {
      GrownAt(w, cs, scatter, e);
    }
  }

  lemma PlanKind(cs: seq<Chunk>, scatter: Scatter, i: nat)
    requires i < 5 * |cs|
    ensures TerrainFor(cs, scatter)[i].agent.None?
  {
    PlanAt(cs, scatter, i / 5, i % 5);
    TerrainIs(cs[i / 5], scatter, i % 5);
  }
}
