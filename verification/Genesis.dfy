/**
 Genesis and chunk streaming: the seeded population, terrain that comes and goes with the
 chunks around the living agents, and what that keeps.
 */
module Genesis {
  import opened Wrappers
  import opened Energy
  import opened World
  import opened Failure
  import opened Lineage

  const CHUNK_SIZE := 32.0
  const STREAM_PERIOD := 120
  const TERRAIN_PER_CHUNK := 5

  // ---------------------------------------------------------------- the order of chunks

  predicate Before(a: Chunk, b: Chunk) {
    a.x < b.x || (a.x == b.x && a.y < b.y)
  }

  predicate First(s: set<Chunk>, c: Chunk) {
    c in s && forall d | d in s :: d == c || Before(c, d)
  }

  lemma {:induction false} HasFirst(s: set<Chunk>)
    requires s != {}
    ensures exists c :: First(s, c)
    decreases |s|
  {
    var d :| d in s;
    if s == {d} {
      assert First(s, d);
    } else {
      var rest := s - {d};
      assert s == rest + {d};
      HasFirst(rest);
      var c :| First(rest, c);
      assert First(s, if Before(d, c) then d else c);
    }
  }

  /** The chunks of a set in their order. */
  function Ordered(s: set<Chunk>): seq<Chunk>
    decreases |s|
  {
    if s == {} then []
    else
      HasFirst(s);
      var c :| First(s, c);
      [c] + Ordered(s - {c})
  }

  lemma {:induction false} OrderedFrom(s: set<Chunk>, c: Chunk)
    requires First(s, c)
    ensures Ordered(s) == [c] + Ordered(s - {c})
  {
  }

  lemma {:induction false} OrderedHas(s: set<Chunk>, c: Chunk)
    ensures c in Ordered(s) <==> c in s
    decreases |s|
  {
    if s != {} {
      HasFirst(s);
      var d :| First(s, d);
      OrderedHas(s - {d}, c);
    }
  }

  lemma {:induction false} OrderedRises(s: set<Chunk>, i: nat, j: nat)
    requires i < j < |Ordered(s)|
    ensures Before(Ordered(s)[i], Ordered(s)[j])
    decreases |s|
  {
    HasFirst(s);
    var d :| First(s, d);
    var rest := Ordered(s - {d});
    if i == 0 {
      OrderedHas(s - {d}, rest[j - 1]);
    } else {
      OrderedRises(s - {d}, i - 1, j - 1);
    }
  }

  // ---------------------------------------------------------------- terrain

  /** The chunk a position lies in. */
  function ChunkAt(x: real, y: real): Chunk {
    Chunk((x / CHUNK_SIZE).Floor, (y / CHUNK_SIZE).Floor)
  }

  datatype Offset = Offset(dx: real, dy: real)

  /** Random offsets of the terrain nodes of a chunk, by their place in its plan. */
  type Scatter = (Chunk, nat) -> Offset

  function TerrainNode(c: Chunk, fx: real, fy: real, jitter: Offset, tag: Tag,
                       mass: real, structure: real, energy: real, conductivity: real): Node {
    Node(Account(energy, BLANK), energy, mass, structure, structure, 0.0, conductivity, {tag},
         (c.x as real + fx) * CHUNK_SIZE + jitter.dx, (c.y as real + fy) * CHUNK_SIZE + jitter.dy,
         Some(c), false, Some(0.0), None)
  }

  function Terrain(c: Chunk, scatter: Scatter): seq<Node> {
    [TerrainNode(c, 0.25, 0.25, scatter(c, 0), EnergyConvertible, 1.0, 8.0, 6.0, 0.6),
     TerrainNode(c, 0.75, 0.25, scatter(c, 1), EnergyConvertible, 1.0, 8.0, 6.0, 0.6),
     TerrainNode(c, 0.25, 0.75, scatter(c, 2), ThermalVent, 2.0, 10.0, 4.0, 0.6),
     TerrainNode(c, 0.75, 0.75, scatter(c, 3), VolatileTrap, 1.5, 8.0, 12.0, 0.6),
     TerrainNode(c, 0.5, 0.5, scatter(c, 4), Shelter, 1.0, 14.0, 2.0, 0.2)]
  }

  function TerrainFor(cs: seq<Chunk>, scatter: Scatter): (ns: seq<Node>)
    ensures |ns| == TERRAIN_PER_CHUNK * |cs|
  {
    if cs == [] then [] else TerrainFor(cs[..|cs| - 1], scatter) + Terrain(cs[|cs| - 1], scatter)
  }

  lemma {:induction false} TerrainAt(cs: seq<Chunk>, scatter: Scatter, i: nat)
    requires i < TERRAIN_PER_CHUNK * |cs|
    ensures TerrainFor(cs, scatter)[i].origin == Some(cs[i / TERRAIN_PER_CHUNK])
    ensures Newborn(TerrainFor(cs, scatter)[i])
  {
    var n := |cs| - 1;
    if i < TERRAIN_PER_CHUNK * n { TerrainAt(cs[..n], scatter, i); }
  }

  // ---------------------------------------------------------------- the first population

  /** A fresh agent with the default tuning. */
  function GenesisAgent(x: real, y: real): Node {
    Node(Account(20.0, BLANK), 20.0, 8.0, 8.0, 8.0, 0.0, 0.6, {AgentTag, ClampCapable, OscillatorTag}, x, y, None,
        false,
         Some(1.0), Some(Agent(UNCLAMPED, 0.0, 0.0, 0.0, 0)))
  }

  function ChunkAgent(c: Chunk, place: Offset): Node {
    GenesisAgent(c.x as real * CHUNK_SIZE + place.dx, c.y as real * CHUNK_SIZE + place.dy)
  }

  function AgentsFor(cs: seq<Chunk>, places: Scatter): seq<Node> {
    if cs == [] then []
    else
      var c := cs[|cs| - 1];
      AgentsFor(cs[..|cs| - 1], places) +
      [ChunkAgent(c, places(c, 0)), ChunkAgent(c, places(c, 1)), ChunkAgent(c, places(c, 2)),
          ChunkAgent(c, places(c, 3))]
  }

  function Grid(x: nat, y: nat): set<Chunk> {
    set i: int, j: int | 0 <= i < x && 0 <= j < y :: Chunk(i, j)
  }

  /** A block of chunks with four agents and five terrain nodes each. */
  function SeedWorld(x: nat, y: nat, places: Scatter, scatter: Scatter): World {
    var cs := Ordered(Grid(x, y));
    StreamIn(StreamIn(EMPTY_WORLD, AgentsFor(cs, places)), TerrainFor(cs, scatter)).(chunks := Grid(x, y))
  }

  function SpawnAgent(w: World, x: real, y: real): World {
    StreamIn(w, [GenesisAgent(x, y)])
  }

  // ---------------------------------------------------------------- streaming

  function Halo(c: Chunk): set<Chunk> {
    {Chunk(c.x - 1, c.y - 1), Chunk(c.x - 1, c.y), Chunk(c.x - 1, c.y + 1),
     Chunk(c.x, c.y - 1), Chunk(c.x, c.y), Chunk(c.x, c.y + 1),
     Chunk(c.x + 1, c.y - 1), Chunk(c.x + 1, c.y), Chunk(c.x + 1, c.y + 1)}
  }

  predicate Near(c: Chunk, d: Chunk) {
    -1 <= d.x - c.x <= 1 && -1 <= d.y - c.y <= 1
  }

  function Center(n: Node): Chunk {
    ChunkAt(n.x, n.y)
  }

  /** The union of the halos of the agents numbered below `n`. */
  function DesiredBelow(w: World, n: nat): set<Chunk> {
    if n == 0 then {}
    else if IsAgent(w, n - 1) then DesiredBelow(w, n - 1) + Halo(Center(w.nodes[n - 1]))
    else DesiredBelow(w, n - 1)
  }

  function Desired(w: World): set<Chunk> {
    DesiredBelow(w, w.next)
  }

  function Coordinate(n: Node): Chunk {
    if n.origin.Some? then n.origin.value else Center(n)
  }

  predicate Leaves(w: World, inactive: set<Chunk>, e: Entity) {
    e in w.nodes && !IsAgent(w, e) && Coordinate(w.nodes[e]) in inactive
  }

  function LeavingBelow(w: World, inactive: set<Chunk>, n: nat): seq<Entity> {
    if n == 0 then []
    else LeavingBelow(w, inactive, n - 1) + if Leaves(w, inactive, n - 1) then [n - 1] else []
  }

  /** New nodes from outside the world, with their mass and energy noted. */
  function StreamIn(w: World, ns: seq<Node>): World {
    var z := SpawnAll(w, ns);
    var s := w.books.streamed;
    z.(books := w.books.(streamed := s.(energyIn := s.energyIn + TotalOf(ns).energy,
        massIn := s.massIn + TotalOf(ns).mass)))
  }

  function StreamOut(w: World, e: Entity): World {
    if e !in w.nodes then w.(joints := Unjoined(w.joints, e))
    else
      var z := Despawn(w, e);
      var s := w.books.streamed;
      z.(books := z.books.(streamed := s.(energyOut := s.energyOut + w.nodes[e].account.energy,
                                          massOut := s.massOut + w.nodes[e].mass)))
  }

  function StreamOutAll(w: World, es: seq<Entity>): World {
    if es == [] then w else StreamOut(StreamOutAll(w, es[..|es| - 1]), es[|es| - 1])
  }

  function NewTerrain(w: World, scatter: Scatter): seq<Node> {
    TerrainFor(Ordered(Desired(w) - w.chunks), scatter)
  }

  function Stream(w: World, scatter: Scatter): World {
    var leaving := LeavingBelow(w, w.chunks - Desired(w), w.next);
    StreamOutAll(StreamIn(w, NewTerrain(w, scatter)), leaving).(chunks := Desired(w))
  }

  function StreamChunks(w: World, scatter: Scatter): World
  {
    if w.step % STREAM_PERIOD != 0 then w else Stream(w, scatter)
  }

  // ---------------------------------------------------------------- what streaming conserves

  lemma StreamInConserves(w: World, ns: seq<Node>)
    requires Keyed(w) && forall n | n in ns :: n.account.ledger == BLANK
    ensures Conserves(w, StreamIn(w, ns))
  {
    SpawnAllSums(w, ns);
    SpawnAllFlows(w, ns);
    HeavyCount(ns);
    SpawnAllExtends(w, ns);
  }

  lemma {:induction false} HeavyCount(ns: seq<Node>)
    ensures TotalOf(ns).heavy >= 0
  {
    if ns != [] { HeavyCount(ns[..|ns| - 1]); }
  }

  lemma StreamInGood(w: World, ns: seq<Node>)
    requires Good(w) && forall n | n in ns :: Newborn(n)
    ensures Good(StreamIn(w, ns))
  {
    var x, z := SpawnAll(w, ns), StreamIn(w, ns);
    SpawnAllGood(w, ns);
    forall e | e in z.nodes ensures HoldOk(z, e) && NodeOk(z.nodes[e]) { assert HoldOk(x, e) && NodeOk(x.nodes[e]); }
  }

  /** Same agents with the same hands; no agent comes back. */
  ghost predicate SpareAgents(w: World, z: World) {
    && w.next <= z.next && z.step == w.step && z.active == w.active && z.completed == w.completed && z.ever == w.ever
    && z.fragments == w.fragments && z.deaths == w.deaths
    && (forall e | IsAgent(w, e) :: e in z.nodes && z.nodes[e] == w.nodes[e])
    && (forall e: Entity | e < w.next && e in z.nodes :: e in w.nodes && z.nodes[e] == w.nodes[e])
  }

  lemma StreamOutStep(w: World, e: Entity)
    requires Good(w) && (e in w.nodes ==> !IsAgent(w, e))
    ensures Conserves(w, StreamOut(w, e)) && Good(StreamOut(w, e)) && SpareAgents(w, StreamOut(w, e))
  {
    if e in w.nodes {
      var x, z := Despawn(w, e), StreamOut(w, e);
      DespawnGood(w, e);
      DespawnSums(w, e);
      assert NodeOk(w.nodes[e]);
      forall f | f in z.nodes ensures HoldOk(z, f) && NodeOk(z.nodes[f]) { assert HoldOk(x, f) && NodeOk(x.nodes[f]); }
    } else {
      assert Unjoined(w.joints, e) == w.joints;
    }
  }

  lemma {:induction false} StreamOutAllStep(w: World, es: seq<Entity>)
    requires Good(w) && forall e | e in es :: !IsAgent(w, e)
    ensures var z := StreamOutAll(w, es);
            && Conserves(w, z) && Good(z) && SpareAgents(w, z) && z.next == w.next
            && z.nodes == w.nodes - (set e | e in es) && z.chunks == w.chunks
  {
    if es != [] {
      var x, e := StreamOutAll(w, es[..|es| - 1]), es[|es| - 1];
      StreamOutAllStep(w, es[..|es| - 1]);
      assert e in es && forall f :: f in es <==> f in es[..|es| - 1] || f == e;
      StreamOutStep(x, e);
    }
  }

  /** Streaming out is despawning, with what leaves the world noted. */
  lemma {:induction false} StreamOutIsDespawn(w: World, es: seq<Entity>)
    ensures StreamOutAll(w, es) == DespawnAll(w, es).(books := StreamOutAll(w, es).books)
  {
    if es != [] { StreamOutIsDespawn(w, es[..|es| - 1]); }
  }

  // ---------------------------------------------------------------- what streaming keeps of the chunks

  function OriginSet(w: World, c: Chunk): set<Entity> {
    set e | e in w.nodes && w.nodes[e].origin == Some(c)
  }

  /** Terrain belongs to active chunks, and no chunk has more than its plan put there. */
  ghost predicate ChunksOk(w: World) {
    && (forall e | e in w.nodes && w.nodes[e].origin.Some? :: w.nodes[e].origin.value in w.chunks)
    && (forall c :: |OriginSet(w, c)| <= TERRAIN_PER_CHUNK)
  }

  lemma SubsetSize<T>(a: set<T>, b: set<T>)
    requires a <= b
    ensures |a| <= |b|
  {
    assert b == a + (b - a);
    assert |b| == |a| + |b - a|;
  }

  /** Nothing but streaming and seeding gives a node an origin. */
  lemma LawfulKeepsChunks(w: World, z: World)
    requires Lawful(w, z) && ChunksOk(w)
    ensures ChunksOk(z)
  {
    forall c ensures |OriginSet(z, c)| <= TERRAIN_PER_CHUNK {
      forall e | e in OriginSet(z, c) ensures e in OriginSet(w, c) { assert z.nodes[e].origin.Some?; }
      SubsetSize(OriginSet(z, c), OriginSet(w, c));
    }
  }

  lemma {:induction false} LeavingAre(w: World, inactive: set<Chunk>, n: nat)
    ensures forall e: Entity :: e in LeavingBelow(w, inactive, n) <==> e < n && Leaves(w, inactive, e)
  {
    if n > 0 { LeavingAre(w, inactive, n - 1); }
  }

  lemma {:induction false} LeavingRise(w: World, inactive: set<Chunk>, n: nat)
    ensures forall i, j | 0 <= i < j < |LeavingBelow(w, inactive, n)| ::
              LeavingBelow(w, inactive, n)[i] < LeavingBelow(w, inactive, n)[j]
  {
    if n > 0 {
      LeavingRise(w, inactive, n - 1);
      LeavingAre(w, inactive, n - 1);
      var before := LeavingBelow(w, inactive, n - 1);
      assert forall i | 0 <= i < |before| :: before[i] in before;
    }
  }

  ghost predicate NearAgent(w: World, c: Chunk, n: nat) {
    exists e: Entity :: e < n && IsAgent(w, e) && Near(Center(w.nodes[e]), c)
  }

  lemma HaloIs(c: Chunk, d: Chunk)
    ensures d in Halo(c) <==> Near(c, d)
  {
  }

  lemma {:induction false} DesiredIs(w: World, n: nat, c: Chunk)
    ensures c in DesiredBelow(w, n) <==> NearAgent(w, c, n)
  {
    if n > 0 {
      DesiredIs(w, n - 1, c);
      if IsAgent(w, n - 1) { HaloIs(Center(w.nodes[n - 1]), c); }
      if NearAgent(w, c, n) {
        var e: Entity :| e < n && IsAgent(w, e) && Near(Center(w.nodes[e]), c);
        assert e == n - 1 || NearAgent(w, c, n - 1);
      }
      if NearAgent(w, c, n - 1) {
        var e: Entity :| e < n - 1 && IsAgent(w, e) && Near(Center(w.nodes[e]), c);
        assert NearAgent(w, c, n);
      }
    }
  }

  /** Nothing is lost, and the new nodes are numbered in order. */
  ghost predicate Adds(w: World, z: World, ns: seq<Node>) {
    && z.next == w.next + |ns|
    && (forall e: Entity | e < w.next :: e in z.nodes <==> e in w.nodes)
    && (forall e: Entity | e in z.nodes && w.next <= e :: e < w.next + |ns| && z.nodes[e] == ns[e - w.next])
  }

  /** What is in the world after streaming: what was there and did not leave, and the new terrain. */
  lemma StreamedNodes(w: World, scatter: Scatter)
    requires Good(w)
    ensures var ns, z := NewTerrain(w, scatter), Stream(w, scatter);
            && z.next == w.next + |ns|
            && (forall e: Entity | e < w.next ::
                  e in z.nodes <==> e in w.nodes && !Leaves(w, w.chunks - Desired(w), e))
            && (forall e: Entity | e in z.nodes && e < w.next :: z.nodes[e] == w.nodes[e])
            && (forall e: Entity | e in z.nodes && w.next <= e :: e < w.next + |ns| && z.nodes[e] == ns[e - w.next])
  {
    var ns, inactive := NewTerrain(w, scatter), w.chunks - Desired(w);
    StreamedIn(w, ns, Ordered(Desired(w) - w.chunks), scatter);
    LeavingAre(w, inactive, w.next);
    StreamOutAllStep(StreamIn(w, ns), LeavingBelow(w, inactive, w.next));
  }

  lemma TerrainNewborn(cs: seq<Chunk>, scatter: Scatter)
    ensures forall n | n in TerrainFor(cs, scatter) :: Newborn(n) && n.account.ledger == BLANK
  {
    var ns := TerrainFor(cs, scatter);
    forall n | n in ns ensures Newborn(n) {
      var i: nat :| i < |ns| && ns[i] == n;
      TerrainAt(cs, scatter, i);
    }
  }

  lemma StreamedIn(w: World, ns: seq<Node>, cs: seq<Chunk>, scatter: Scatter)
    requires Good(w) && ns == TerrainFor(cs, scatter)
    ensures var z := StreamIn(w, ns);
            Good(z) && Conserves(w, z) && SpareAgents(w, z) && Adds(w, z, ns) && z.chunks == w.chunks
  {
    TerrainNewborn(cs, scatter);
    StreamInGood(w, ns);
    StreamInConserves(w, ns);
    StreamInAdds(w, ns);
  }

  lemma StreamedOld(w: World, scatter: Scatter, e: Entity)
    requires Good(w) && e < w.next
    ensures var z := Stream(w, scatter);
            && (e in z.nodes <==> e in w.nodes && !Leaves(w, w.chunks - Desired(w), e))
            && (e in z.nodes ==> z.nodes[e] == w.nodes[e])
  {
    StreamedNodes(w, scatter);
  }

  lemma StreamedNew(w: World, scatter: Scatter, e: Entity)
    requires Good(w) && e in Stream(w, scatter).nodes && w.next <= e
    ensures var ns := NewTerrain(w, scatter);
            e - w.next < |ns| && Stream(w, scatter).nodes[e] == ns[e - w.next]
  {
    StreamedNodes(w, scatter);
  }

  lemma StreamInAdds(w: World, ns: seq<Node>)
    requires Keyed(w)
    ensures var z := StreamIn(w, ns);
            SpareAgents(w, z) && Adds(w, z, ns) && z.chunks == w.chunks
  {
    SpawnAllExtends(w, ns);
    var x := SpawnAll(w, ns);
    forall e: Entity | e in x.nodes && w.next <= e ensures e < w.next + |ns| && x.nodes[e] == ns[e - w.next] {
      SpawnedAt(w, ns, e - w.next);
    }
  }

  /** Streaming conserves all totals and spares every agent. */
  lemma StreamStep(w: World, scatter: Scatter)
    requires Good(w)
    ensures var z := Stream(w, scatter);
            Conserves(w, z) && Good(z) && SpareAgents(w, z)
  {
    var ns, inactive := NewTerrain(w, scatter), w.chunks - Desired(w);
    var grown, leaving := StreamIn(w, ns), LeavingBelow(w, inactive, w.next);
    StreamedIn(w, ns, Ordered(Desired(w) - w.chunks), scatter);
    LeavingAre(w, inactive, w.next);
    StreamOutAllStep(grown, leaving);
    var x, z := StreamOutAll(grown, leaving), Stream(w, scatter);
    forall e | e in z.nodes ensures HoldOk(z, e) && NodeOk(z.nodes[e]) { assert HoldOk(x, e) && NodeOk(x.nodes[e]); }
  }

  lemma TerrainHome(cs: seq<Chunk>, scatter: Scatter, i: nat)
    requires i < TERRAIN_PER_CHUNK * |cs|
    ensures TerrainFor(cs, scatter)[i].origin.Some? && TerrainFor(cs, scatter)[i].origin.value in cs
  {
    TerrainAt(cs, scatter, i);
  }

  lemma RemainingOrigin(w: World, scatter: Scatter, e: Entity)
    requires Good(w) && ChunksOk(w) && e < w.next
    requires e in Stream(w, scatter).nodes && Stream(w, scatter).nodes[e].origin.Some?
    ensures var c := Stream(w, scatter).nodes[e].origin.value;
            c in Desired(w) && e in w.nodes && c in w.chunks && w.nodes[e].origin == Some(c)
  {
    StreamedOld(w, scatter, e);
    assert NodeOk(w.nodes[e]);
  }

  lemma NewOrigin(w: World, scatter: Scatter, e: Entity)
    requires Good(w) && ChunksOk(w) && w.next <= e && e in Stream(w, scatter).nodes
    ensures var n := Stream(w, scatter).nodes[e];
            n.origin.Some? && n.origin.value in Desired(w) && n.origin.value !in w.chunks
  {
    StreamedNew(w, scatter, e);
    TerrainHome(Ordered(Desired(w) - w.chunks), scatter, e - w.next);
    OrderedHas(Desired(w) - w.chunks, Stream(w, scatter).nodes[e].origin.value);
  }

  lemma StreamedOrigin(w: World, scatter: Scatter, e: Entity)
    requires Good(w) && ChunksOk(w) && e in Stream(w, scatter).nodes && Stream(w, scatter).nodes[e].origin.Some?
    ensures var c := Stream(w, scatter).nodes[e].origin.value;
            && c in Desired(w)
            && (e < w.next ==> e in w.nodes && c in w.chunks && w.nodes[e].origin == Some(c))
            && (w.next <= e ==> c !in w.chunks)
  {
    if e < w.next { RemainingOrigin(w, scatter, e); } else { NewOrigin(w, scatter, e); }
  }

  lemma {:induction false} OrderedOnce(s: set<Chunk>, i: nat, j: nat)
    requires i < |Ordered(s)| && j < |Ordered(s)| && Ordered(s)[i] == Ordered(s)[j]
    ensures i == j
  {
    if i < j { OrderedRises(s, i, j); } else if j < i { OrderedRises(s, j, i); }
  }

  /** The new nodes of the k-th new chunk are at five consecutive numbers. */
  lemma {:induction false} PlantedPlace(w: World, novel: set<Chunk>, scatter: Scatter, k: nat, e: Entity)
    requires Good(w) && k < |Ordered(novel)| && OriginSet(w, Ordered(novel)[k]) == {}
    requires e in OriginSet(StreamIn(w, TerrainFor(Ordered(novel), scatter)), Ordered(novel)[k])
    ensures 0 <= e - w.next - TERRAIN_PER_CHUNK * k < TERRAIN_PER_CHUNK
  {
    var cs, c := Ordered(novel), Ordered(novel)[k];
    StreamInAdds(w, TerrainFor(cs, scatter));
    assert e !in OriginSet(w, c);
    var i := e - w.next;
    TerrainAt(cs, scatter, i);
    OrderedOnce(novel, i / TERRAIN_PER_CHUNK, k);
  }

  lemma FiveAt(s: set<Entity>, b: nat)
    requires forall e | e in s :: 0 <= e - b < TERRAIN_PER_CHUNK
    ensures |s| <= TERRAIN_PER_CHUNK
  {
    SubsetSize(s, {b, b + 1, b + 2, b + 3, b + 4});
  }

  lemma {:induction false} PlantedOrigins(w: World, novel: set<Chunk>, scatter: Scatter, c: Chunk)
    requires Good(w) && c in novel && OriginSet(w, c) == {}
    ensures |OriginSet(StreamIn(w, TerrainFor(Ordered(novel), scatter)), c)| <= TERRAIN_PER_CHUNK
  {
    var z := StreamIn(w, TerrainFor(Ordered(novel), scatter));
    OrderedHas(novel, c);
    var k: nat :| k < |Ordered(novel)| && Ordered(novel)[k] == c;
    var b := w.next + TERRAIN_PER_CHUNK * k;
    forall e | e in OriginSet(z, c) ensures 0 <= e - b < TERRAIN_PER_CHUNK { PlantedPlace(w, novel, scatter, k, e); }
    FiveAt(OriginSet(z, c), b);
  }

  lemma NovelOrigins(w: World, scatter: Scatter, c: Chunk)
    requires Good(w) && ChunksOk(w) && c in Desired(w) - w.chunks
    ensures |OriginSet(Stream(w, scatter), c)| <= TERRAIN_PER_CHUNK
  {
    assert OriginSet(w, c) == {};
    PlantedOrigins(w, Desired(w) - w.chunks, scatter, c);
    var z, grown := Stream(w, scatter), StreamIn(w, NewTerrain(w, scatter));
    forall e | e in OriginSet(z, c) ensures e in OriginSet(grown, c) { StreamedStays(w, scatter, e); }
    SubsetSize(OriginSet(z, c), OriginSet(grown, c));
  }

  lemma StreamedStays(w: World, scatter: Scatter, e: Entity)
    requires Good(w) && e in Stream(w, scatter).nodes
    ensures var grown := StreamIn(w, NewTerrain(w, scatter));
            e in grown.nodes && Stream(w, scatter).nodes[e] == grown.nodes[e]
  {
    var ns, inactive := NewTerrain(w, scatter), w.chunks - Desired(w);
    StreamedIn(w, ns, Ordered(Desired(w) - w.chunks), scatter);
    LeavingAre(w, inactive, w.next);
    StreamOutAllStep(StreamIn(w, ns), LeavingBelow(w, inactive, w.next));
  }

  lemma StreamKeepsOrigins(w: World, scatter: Scatter, c: Chunk)
    requires Good(w) && ChunksOk(w)
    ensures |OriginSet(Stream(w, scatter), c)| <= TERRAIN_PER_CHUNK
  {
    var z := Stream(w, scatter);
    if c in Desired(w) - w.chunks {
      NovelOrigins(w, scatter, c);
    } else {
      forall e | e in OriginSet(z, c) ensures e in OriginSet(w, c) { StreamedOrigin(w, scatter, e); }
      SubsetSize(OriginSet(z, c), OriginSet(w, c));
    }
  }

  /** Streaming keeps terrain within the active chunks, which are exactly the agents' halos. */
  lemma StreamKeepsChunks(w: World, scatter: Scatter)
    requires Good(w) && ChunksOk(w)
    ensures var z := Stream(w, scatter);
            ChunksOk(z) && forall c :: c in z.chunks <==> NearAgent(z, c, z.next)
  {
    var z := Stream(w, scatter);
    forall c ensures |OriginSet(z, c)| <= TERRAIN_PER_CHUNK { StreamKeepsOrigins(w, scatter, c); }
    forall e | e in z.nodes && z.nodes[e].origin.Some? ensures z.nodes[e].origin.value in z.chunks {
      StreamedOrigin(w, scatter, e);
    }
    forall c ensures c in z.chunks <==> NearAgent(z, c, z.next) {
      DesiredIs(w, w.next, c);
      SameHalos(w, scatter, c);
    }
  }

  lemma AgentRemains(w: World, scatter: Scatter, e: Entity)
    requires Good(w) && IsAgent(Stream(w, scatter), e)
    ensures e < w.next && IsAgent(w, e) && Stream(w, scatter).nodes[e] == w.nodes[e]
  {
    if e < w.next {
      StreamedOld(w, scatter, e);
    } else {
      StreamedNew(w, scatter, e);
      TerrainAt(Ordered(Desired(w) - w.chunks), scatter, e - w.next);
      assert false;
    }
  }

  lemma SameHalos(w: World, scatter: Scatter, c: Chunk)
    requires Good(w) && ChunksOk(w)
    ensures NearAgent(Stream(w, scatter), c, Stream(w, scatter).next) <==> NearAgent(w, c, w.next)
  {
    var z := Stream(w, scatter);
    StreamStep(w, scatter);
    if NearAgent(z, c, z.next) {
      var e: Entity :| e < z.next && IsAgent(z, e) && Near(Center(z.nodes[e]), c);
      AgentRemains(w, scatter, e);
    }
    if NearAgent(w, c, w.next) {
      var e: Entity :| e < w.next && IsAgent(w, e) && Near(Center(w.nodes[e]), c);
      assert IsAgent(z, e) && z.nodes[e] == w.nodes[e];
    }
  }

  // ---------------------------------------------------------------- how much terrain there can be

  function AgentsBelow(w: World, n: nat): set<Entity> {
    set e: Entity | e in w.nodes && IsAgent(w, e) && e < n
  }

  lemma UnionSize<T>(a: set<T>, b: set<T>)
    ensures |a + b| <= |a| + |b|
  {
  }

  lemma HaloSize(c: Chunk)
    ensures |Halo(c)| <= 9
  {
  }

  lemma {:induction false} DesiredSize(w: World, n: nat)
    ensures |DesiredBelow(w, n)| <= 9 * |AgentsBelow(w, n)|
  {
    if n > 0 {
      DesiredSize(w, n - 1);
      if IsAgent(w, n - 1) {
        assert AgentsBelow(w, n) == AgentsBelow(w, n - 1) + {n - 1};
        HaloSize(Center(w.nodes[n - 1]));
        UnionSize(DesiredBelow(w, n - 1), Halo(Center(w.nodes[n - 1])));
      } else {
        assert AgentsBelow(w, n) == AgentsBelow(w, n - 1);
      }
    }
  }

  function SettledIn(w: World, cs: set<Chunk>): set<Entity> {
    set e | e in w.nodes && w.nodes[e].origin.Some? && w.nodes[e].origin.value in cs
  }

  lemma {:induction false} SettledSize(w: World, cs: set<Chunk>)
    requires forall c :: |OriginSet(w, c)| <= TERRAIN_PER_CHUNK
    ensures |SettledIn(w, cs)| <= TERRAIN_PER_CHUNK * |cs|
    decreases |cs|
  {
    if cs == {} {
      assert SettledIn(w, cs) == {};
    } else {
      var c :| c in cs;
      var rest := cs - {c};
      SettledSize(w, rest);
      assert cs == rest + {c};
      SubsetSize(SettledIn(w, cs), SettledIn(w, rest) + OriginSet(w, c));
    }
  }

  function Settled(w: World): set<Entity> {
    set e | e in w.nodes && w.nodes[e].origin.Some?
  }

  /** There are at most 45 nodes of chunk terrain for each agent alive. */
  lemma TerrainBound(w: World, scatter: Scatter)
    requires Good(w) && ChunksOk(w)
    ensures |Settled(Stream(w, scatter))| <= 45 * |Alive(w)|
  {
    var z := Stream(w, scatter);
    StreamKeepsChunks(w, scatter);
    assert Settled(z) == SettledIn(z, z.chunks);
    SettledSize(z, z.chunks);
    DesiredSize(w, w.next);
    SubsetSize(AgentsBelow(w, w.next), Alive(w));
  }

  // ---------------------------------------------------------------- the first population is sound

  lemma GenesisAgentOk(x: real, y: real)
    ensures Newborn(GenesisAgent(x, y)) && GenesisAgent(x, y).origin.None?
  {
  }

  lemma {:induction false} AgentsForOk(cs: seq<Chunk>, places: Scatter)
    ensures forall n | n in AgentsFor(cs, places) :: Newborn(n) && n.origin.None?
  {
    if cs != [] {
      var c := cs[|cs| - 1];
      AgentsForOk(cs[..|cs| - 1], places);
      forall i: nat | i < 4 ensures Newborn(ChunkAgent(c, places(c, i))) && ChunkAgent(c, places(c, i)).origin.None? {
        GenesisAgentOk(ChunkAgent(c, places(c, i)).x, ChunkAgent(c, places(c, i)).y);
      }
    }
  }

  /** New agents keep the world good, and bring no terrain. */
  lemma ArrivalsStep(w: World, ns: seq<Node>)
    requires Good(w) && forall n | n in ns :: Newborn(n) && n.origin.None?
    ensures var z := StreamIn(w, ns);
            && Good(z) && Conserves(w, z) && SpareAgents(w, z) && z.chunks == w.chunks
            && (ChunksOk(w) ==> ChunksOk(z))
            && (forall e | e in z.nodes && w.next <= e :: z.nodes[e].origin.None?)
  {
    var z := StreamIn(w, ns);
    StreamInGood(w, ns);
    StreamInConserves(w, ns);
    StreamInAdds(w, ns);
    forall e | e in z.nodes && w.next <= e ensures z.nodes[e].origin.None? { assert z.nodes[e] in ns; }
    forall c ensures OriginSet(z, c) == OriginSet(w, c) {
      forall e | e in OriginSet(w, c) ensures e in z.nodes && z.nodes[e] == w.nodes[e] { assert e < w.next; }
    }
  }

  lemma EmptyOk()
    ensures Good(EMPTY_WORLD) && ChunksOk(EMPTY_WORLD) && RecordsOk(EMPTY_WORLD)
  {
  }

  lemma SameSceneOk(w: World, z: World)
    requires Good(w) && z == w.(chunks := z.chunks)
    ensures Good(z) && (JointsExact(w) ==> JointsExact(z)) && (RecordsOk(w) ==> RecordsOk(z))
  {
    forall e | e in z.nodes ensures HoldOk(z, e) && NodeOk(z.nodes[e]) { assert HoldOk(w, e) && NodeOk(w.nodes[e]); }
  }

  lemma NothingHeld(w: World)
    requires Good(w) && w.joints == map[] && w.makers == map[] && w.active == map[] && w.completed == [] && w.ever == {}
    ensures JointsExact(w) && RecordsOk(w)
  {
    forall e | e in w.nodes ensures Held(w, e).None? { assert HoldOk(w, e); }
  }

  lemma SeedOk(x: nat, y: nat, places: Scatter, scatter: Scatter)
    ensures var w := SeedWorld(x, y, places, scatter);
            Good(w) && ChunksOk(w) && RecordsOk(w) && w.fragments == [] && w.deaths == [] && JointsExact(w)
  {
    var cs := Ordered(Grid(x, y));
    var peopled := StreamIn(EMPTY_WORLD, AgentsFor(cs, places));
    var grown := StreamIn(peopled, TerrainFor(cs, scatter));
    EmptyOk();
    AgentsForOk(cs, places);
    ArrivalsStep(EMPTY_WORLD, AgentsFor(cs, places));
    SpawnAllExtends(EMPTY_WORLD, AgentsFor(cs, places));
    StreamedIn(peopled, TerrainFor(cs, scatter), cs, scatter);
    SpawnAllExtends(peopled, TerrainFor(cs, scatter));
    NothingHeld(grown);
    SameSceneOk(grown, SeedWorld(x, y, places, scatter));
    SeededChunks(peopled, Grid(x, y), scatter);
  }

  lemma SettleConserves(w: World, ns: seq<Node>, cs: seq<Chunk>, scatter: Scatter, chunks: set<Chunk>)
    requires Good(w) && forall n | n in ns :: Newborn(n) && n.origin.None?
    ensures Conserves(w, StreamIn(StreamIn(w, ns), TerrainFor(cs, scatter)).(chunks := chunks))
  {
    ArrivalsStep(w, ns);
    StreamedIn(StreamIn(w, ns), TerrainFor(cs, scatter), cs, scatter);
  }

  /** Seeding accounts for everything it brings. */
  lemma SeedConserves(x: nat, y: nat, places: Scatter, scatter: Scatter)
    ensures Conserves(EMPTY_WORLD, SeedWorld(x, y, places, scatter))
  {
    var cs := Ordered(Grid(x, y));
    EmptyOk();
    AgentsForOk(cs, places);
    SettleConserves(EMPTY_WORLD, AgentsFor(cs, places), cs, scatter, Grid(x, y));
  }

  lemma {:induction false} SeededChunks(w: World, novel: set<Chunk>, scatter: Scatter)
    requires Good(w) && forall e | e in w.nodes :: w.nodes[e].origin.None?
    ensures ChunksOk(StreamIn(w, TerrainFor(Ordered(novel), scatter)).(chunks := novel))
  {
    var grown := StreamIn(w, TerrainFor(Ordered(novel), scatter));
    var z := grown.(chunks := novel);
    StreamInAdds(w, TerrainFor(Ordered(novel), scatter));
    forall e | e in z.nodes && z.nodes[e].origin.Some? ensures z.nodes[e].origin.value in novel {
      TerrainHome(Ordered(novel), scatter, e - w.next);
      OrderedHas(novel, z.nodes[e].origin.value);
    }
    forall c ensures |OriginSet(z, c)| <= TERRAIN_PER_CHUNK {
      assert OriginSet(z, c) == OriginSet(grown, c);
      if c in novel {
        PlantedOrigins(w, novel, scatter, c);
      } else {
        assert OriginSet(z, c) == {};
      }
    }
  }
}
