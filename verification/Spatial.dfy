/**
 The spatial hash and its consumers: the grid agrees with brute force over all nodes, so the
 nearest neighbor is nearest, the observation window holds the nearest, and every magnetic
 pair in range meets once.
 */
module Spatial {

  type Entity = nat

  datatype Point = Point(x: real, y: real)

  datatype Cell = Cell(x: int, y: int)

  const CELL_SIZE := 4.0

  function CellAt(p: Point): Cell {
    Cell((p.x / CELL_SIZE).Floor, (p.y / CELL_SIZE).Floor)
  }

  function DistanceSquared(p: Point, q: Point): real {
    (p.x - q.x) * (p.x - q.x) + (p.y - q.y) * (p.y - q.y)
  }

  function Ceiling(x: real): (c: int)
    ensures x <= c as real < x + 1.0
  {
    -((-x).Floor)
  }

  /** How many cells to each side a query looks at. */
  function Reach(radius: real): int {
    Ceiling(radius / CELL_SIZE)
  }

  predicate Has<T(==)>(s: seq<T>, x: T) {
    x in s
  }

  ghost predicate NoRepeats<T(!new)>(s: seq<T>) {
    forall x {:trigger multiset(s)[x]} :: multiset(s)[x] <= 1
  }

  ghost predicate Apart<T(!new)>(a: seq<T>, b: seq<T>) {
    forall x {:trigger Has(a, x)} :: Has(a, x) ==> !Has(b, x)
  }

  lemma NoRepeatsConcat<T(!new)>(a: seq<T>, b: seq<T>)
    requires NoRepeats(a) && NoRepeats(b) && Apart(a, b)
    ensures NoRepeats(a + b)
  {
    forall x ensures multiset(a + b)[x] <= 1 {
      assert multiset(a + b)[x] == multiset(a)[x] + multiset(b)[x];
      assert multiset(a)[x] > 0 <==> Has(a, x);
      assert multiset(b)[x] > 0 <==> Has(b, x);
    }
  }

  lemma FrontOnce<T(!new)>(s: seq<T>)
    requires NoRepeats(s) && s != []
    ensures NoRepeats(s[..|s| - 1]) && s[|s| - 1] !in s[..|s| - 1]
  {
    var front, last := s[..|s| - 1], s[|s| - 1];
    assert s == front + [last];
    forall x ensures multiset(front)[x] + multiset([last])[x] <= 1 { assert multiset(s)[x] <= 1; }
    assert multiset([last])[last] == 1;
  }

  /** No two places of the sequence hold the same. */
  lemma NoRepeatsAt<T(!new)>(s: seq<T>, i: nat, j: nat)
    requires NoRepeats(s) && i < j < |s|
    ensures s[i] != s[j]
  {
    assert s == s[..j] + s[j..];
    assert multiset(s)[s[j]] == multiset(s[..j])[s[j]] + multiset(s[j..])[s[j]];
    assert s[j] == s[j..][0] && s[i] == s[..j][i];
  }

  // ---------------------------------------------------------------- buckets

  /** The entities of one cell, in the order they were met. */
  function Bucket(order: seq<Entity>, at: map<Entity, Point>, c: Cell): seq<Entity>
    requires forall e | e in order :: e in at
  {
    if order == [] then []
    else
      var e := order[|order| - 1];
      Bucket(order[..|order| - 1], at, c) + if CellAt(at[e]) == c then [e] else []
  }

  lemma BucketNext(order: seq<Entity>, i: nat, at: map<Entity, Point>, c: Cell)
    requires i < |order| && forall e | e in order :: e in at
    ensures Bucket(order[..i + 1], at, c) ==
            Bucket(order[..i], at, c) + if CellAt(at[order[i]]) == c then [order[i]] else []
  {
    assert order[..i + 1][..i] == order[..i] && order[..i + 1][i] == order[i];
  }

  lemma {:induction false} BucketHas(order: seq<Entity>, at: map<Entity, Point>, c: Cell, e: Entity)
    requires forall x | x in order :: x in at
    ensures e in Bucket(order, at, c) <==> e in order && CellAt(at[e]) == c
  {
    if order != [] { BucketHas(order[..|order| - 1], at, c, e); }
  }

  lemma NoRepeatsAppend<T(!new)>(s: seq<T>, x: T)
    requires NoRepeats(s) && x !in s
    ensures NoRepeats(s + [x])
  {
    assert multiset([x])[x] == 1;
    forall y ensures multiset(s + [x])[y] <= 1 { assert multiset(s + [x])[y] == multiset(s)[y] + multiset([x])[y]; }
  }

  lemma {:induction false} BucketOnce(order: seq<Entity>, at: map<Entity, Point>, c: Cell)
    requires NoRepeats(order) && forall x | x in order :: x in at
    ensures NoRepeats(Bucket(order, at, c))
  {
    if order != [] {
      var front, e := order[..|order| - 1], order[|order| - 1];
      FrontOnce(order);
      BucketOnce(front, at, c);
      BucketHas(front, at, c, e);
      if CellAt(at[e]) == c { NoRepeatsAppend(Bucket(front, at, c), e); }
    }
  }

  type Cells = map<Cell, seq<Entity>>

  function Mates(cells: Cells, c: Cell): seq<Entity> {
    if c in cells then cells[c] else []
  }

  function Homes(at: map<Entity, Point>): map<Entity, Cell> {
    map e | e in at :: CellAt(at[e])
  }

  /** Each node is in the bucket of its own cell, once, and nothing else is in any bucket. */
  ghost predicate Indexes(cells: Cells, homes: map<Entity, Cell>) {
    Houses(cells, homes) && forall c :: NoRepeats(Mates(cells, c))
  }

  ghost predicate Houses(cells: Cells, homes: map<Entity, Cell>) {
    forall c, e {:trigger Has(Mates(cells, c), e)} :: Has(Mates(cells, c), e) <==> e in homes && homes[e] == c
  }

  // ---------------------------------------------------------------- queries

  function Strip(cells: Cells, x: int, y: int, n: nat): seq<Entity> {
    if n == 0 then [] else Strip(cells, x, y, n - 1) + Mates(cells, Cell(x, y + n - 1))
  }

  /** The entities of a block of cells, column by column. */
  function Block(cells: Cells, x: int, y: int, m: nat, n: nat): seq<Entity> {
    if m == 0 then [] else Block(cells, x, y, m - 1, n) + Strip(cells, x + m - 1, y, n)
  }

  function Width(radius: real): nat {
    if Reach(radius) < 0 then 0 else 2 * Reach(radius) + 1
  }

  function Query(cells: Cells, p: Point, radius: real): seq<Entity> {
    Block(cells, CellAt(p).x - Reach(radius), CellAt(p).y - Reach(radius), Width(radius), Width(radius))
  }

  predicate InStrip(c: Cell, x: int, y: int, n: nat) {
    c.x == x && y <= c.y < y + n
  }

  predicate InBlock(c: Cell, x: int, y: int, m: nat, n: nat) {
    x <= c.x < x + m && y <= c.y < y + n
  }

  lemma {:induction false} StripHas(cells: Cells, homes: map<Entity, Cell>, x: int, y: int, n: nat, e: Entity)
    requires Houses(cells, homes)
    ensures e in Strip(cells, x, y, n) <==> e in homes && InStrip(homes[e], x, y, n)
  {
    if n > 0 {
      StripHas(cells, homes, x, y, n - 1, e);
      assert Has(Mates(cells, Cell(x, y + n - 1)), e) <==> e in homes && homes[e] == Cell(x, y + n - 1);
    }
  }

  lemma {:induction false} CellsApartInStrip(cells: Cells, homes: map<Entity, Cell>, x: int, y: int, n: nat)
    requires Houses(cells, homes)
    ensures Apart(Strip(cells, x, y, n), Mates(cells, Cell(x, y + n)))
  {
    var strip, mates := Strip(cells, x, y, n), Mates(cells, Cell(x, y + n));
    forall e | Has(strip, e) ensures !Has(mates, e) { StripHas(cells, homes, x, y, n, e); }
  }

  lemma {:induction false} StripOnce(cells: Cells, homes: map<Entity, Cell>, x: int, y: int, n: nat)
    requires Indexes(cells, homes)
    ensures NoRepeats(Strip(cells, x, y, n))
  {
    if n > 0 {
      StripOnce(cells, homes, x, y, n - 1);
      CellsApartInStrip(cells, homes, x, y, n - 1);
      NoRepeatsConcat(Strip(cells, x, y, n - 1), Mates(cells, Cell(x, y + n - 1)));
    }
  }

  lemma {:induction false} BlockHas(cells: Cells, homes: map<Entity, Cell>, x: int, y: int, m: nat, n: nat, e: Entity)
    requires Houses(cells, homes)
    ensures e in Block(cells, x, y, m, n) <==> e in homes && InBlock(homes[e], x, y, m, n)
  {
    if m > 0 {
      BlockHas(cells, homes, x, y, m - 1, n, e);
      StripHas(cells, homes, x + m - 1, y, n, e);
    }
  }

  lemma {:induction false} ColumnsApart(cells: Cells, homes: map<Entity, Cell>, x: int, y: int, m: nat, n: nat)
    requires Houses(cells, homes)
    ensures Apart(Block(cells, x, y, m, n), Strip(cells, x + m, y, n))
  {
    var block, strip := Block(cells, x, y, m, n), Strip(cells, x + m, y, n);
    forall e | Has(block, e) ensures !Has(strip, e) {
      BlockHas(cells, homes, x, y, m, n, e);
      StripHas(cells, homes, x + m, y, n, e);
    }
  }

  lemma {:induction false} BlockOnce(cells: Cells, homes: map<Entity, Cell>, x: int, y: int, m: nat, n: nat)
    requires Indexes(cells, homes)
    ensures NoRepeats(Block(cells, x, y, m, n))
  {
    if m > 0 {
      var k := m - 1;
      BlockOnce(cells, homes, x, y, k, n);
      StripOnce(cells, homes, x + k, y, n);
      ColumnsApart(cells, homes, x, y, k, n);
      ColumnAdds(cells, x, y, k, n);
    }
  }

  lemma ColumnAdds(cells: Cells, x: int, y: int, m: nat, n: nat)
    requires NoRepeats(Block(cells, x, y, m, n)) && NoRepeats(Strip(cells, x + m, y, n))
    requires Apart(Block(cells, x, y, m, n), Strip(cells, x + m, y, n))
    ensures NoRepeats(Block(cells, x, y, m + 1, n))
  {
    NoRepeatsConcat(Block(cells, x, y, m, n), Strip(cells, x + m, y, n));
  }

  lemma Square(x: real)
    ensures x * x >= 0.0
  {
  }

  lemma Product(a: real, b: real)
    requires a > 0.0 && b > 0.0
    ensures a * b > 0.0
  {
  }

  /** Nothing is further along one axis than it is far away. */
  lemma AxisBound(d: real, other: real, radius: real)
    requires radius >= 0.0 && d * d + other * other <= radius * radius
    ensures -radius <= d <= radius
  {
    Square(other);
    if d > radius { Product(d - radius, d + radius); }
    if d < -radius { Product(-d - radius, -d + radius); }
  }

  lemma CellsApart(a: real, b: real, radius: real)
    requires radius >= 0.0 && -radius <= a - b <= radius
    ensures -Reach(radius) <= (a / CELL_SIZE).Floor - (b / CELL_SIZE).Floor <= Reach(radius)
  {
    var r := Reach(radius);
    assert (a - b) / CELL_SIZE <= r as real && (b - a) / CELL_SIZE <= r as real;
    assert a / CELL_SIZE - b / CELL_SIZE == (a - b) / CELL_SIZE;
  }

  lemma QueryHas(cells: Cells, at: map<Entity, Point>, p: Point, radius: real, e: Entity)
    requires Indexes(cells, Homes(at)) && e in at
    requires radius >= 0.0 && DistanceSquared(at[e], p) <= radius * radius
    ensures e in Query(cells, p, radius)
  {
    var r, c := Reach(radius), CellAt(p);
    BlockHas(cells, Homes(at), c.x - r, c.y - r, Width(radius), Width(radius), e);
    AxisBound(at[e].x - p.x, at[e].y - p.y, radius);
    AxisBound(at[e].y - p.y, at[e].x - p.x, radius);
    CellsApart(at[e].x, p.x, radius);
    CellsApart(at[e].y, p.y, radius);
  }

  /**
   The grid agrees with brute force: a query returns every node within the radius, each node
   at most once, and only nodes of the index.
   */
  lemma QueryComplete(cells: Cells, at: map<Entity, Point>, p: Point, radius: real)
    requires Indexes(cells, Homes(at))
    ensures NoRepeats(Query(cells, p, radius))
    ensures forall e | e in Query(cells, p, radius) :: e in at
    ensures forall e | e in at && radius >= 0.0 && DistanceSquared(at[e], p) <= radius * radius ::
              e in Query(cells, p, radius)
  {
    var x, y, n := CellAt(p).x - Reach(radius), CellAt(p).y - Reach(radius), Width(radius);
    BlockOnce(cells, Homes(at), x, y, n, n);
    forall e | e in Query(cells, p, radius) ensures e in at { BlockHas(cells, Homes(at), x, y, n, n, e); }
    forall e | e in at && radius >= 0.0 && DistanceSquared(at[e], p) <= radius * radius
      ensures e in Query(cells, p, radius)
    {
      QueryHas(cells, at, p, radius, e);
    }
  }

  /**
   What a query returns, exactly: the nodes in the block of cells, four units to a side, that
   reaches as many cells to each side as it takes to cover the radius.
   */
  lemma QueryExactly(cells: Cells, at: map<Entity, Point>, p: Point, radius: real, r: int, e: Entity)
    requires Indexes(cells, Homes(at)) && radius >= 0.0 && (r as real - 1.0) * 4.0 < radius <= r as real * 4.0
    ensures e in Query(cells, p, radius) <==>
            && e in at
            && -r <= (at[e].x / 4.0).Floor - (p.x / 4.0).Floor <= r
            && -r <= (at[e].y / 4.0).Floor - (p.y / 4.0).Floor <= r
  {
    assert radius / CELL_SIZE * CELL_SIZE == radius;
    assert Reach(radius) == r;
    BlockHas(cells, Homes(at), CellAt(p).x - r, CellAt(p).y - r, Width(radius), Width(radius), e);
  }

  /** The order in which a query meets the nodes: each once. */
  ghost predicate Lists(order: seq<Entity>, at: map<Entity, Point>) {
    NoRepeats(order) && forall e {:trigger Has(order, e)} :: Has(order, e) <==> e in at
  }

  lemma BucketsIndex(cells: Cells, order: seq<Entity>, at: map<Entity, Point>)
    requires Lists(order, at) && forall e | e in order :: e in at
    requires forall c {:trigger Mates(cells, c)} :: Mates(cells, c) == Bucket(order, at, c)
    ensures Indexes(cells, Homes(at))
  {
    forall c ensures NoRepeats(Mates(cells, c)) { BucketOnce(order, at, c); }
    forall c, e ensures Has(Mates(cells, c), e) <==> e in at && CellAt(at[e]) == c {
      BucketHas(order, at, c, e);
      assert Has(order, e) <==> e in at;
    }
  }

  class SpatialHash {
    var cells: map<Cell, seq<Entity>>

    constructor ()
      ensures cells == map[]
    {
      cells := map[];
    }

    /** Whatever was indexed before is forgotten. */
    method Rebuild(order: seq<Entity>, at: map<Entity, Point>)
      requires Lists(order, at)
      modifies this
      ensures Indexes(cells, Homes(at))
    {
      cells := map[];
      forall e | e in order ensures e in at { assert Has(order, e); }
      for i := 0 to |order|
        invariant forall c {:trigger Mates(cells, c)} :: Mates(cells, c) == Bucket(order[..i], at, c)
      {
        ghost var before := cells;
        var cell := CellAt(at[order[i]]);
        var bucket := if cell in cells then cells[cell] else [];
        cells := cells[cell := bucket + [order[i]]];
        forall c ensures Mates(cells, c) == Bucket(order[..i + 1], at, c) {
          BucketNext(order, i, at, c);
          assert Mates(before, c) == Bucket(order[..i], at, c);
        }
      }
      assert order[..|order|] == order;
      BucketsIndex(cells, order, at);
    }

    method QueryRadius(p: Point, radius: real) returns (out: seq<Entity>)
      ensures out == Query(cells, p, radius)
    {
      out := [];
      var r, center := Reach(radius), CellAt(p);
      if r < 0 { return; }
      for dx := -r to r + 1
        invariant out == Block(cells, center.x - r, center.y - r, dx + r, Width(radius))
      {
        ghost var before := out;
        for dy := -r to r + 1
          invariant out == before + Strip(cells, center.x + dx, center.y - r, dy + r)
        {
          var cell := Cell(center.x + dx, center.y + dy);
          if cell in cells { out := out + cells[cell]; }
        }
      }
    }
  }
}
