/**
 The consumers of the spatial hash: the nearest neighbor that a clamp takes, the window of
 nearest neighbors in an observation, and the magnetic pairs.
 */
module Neighbors {
  import opened Wrappers
  import opened Spatial

  const CLAMP_RANGE := 12.0
  const MAGNETIC_RANGE := 10.0

  /** Nodes may have gone since the index was built, but none has moved. */
  ghost predicate Current(cells: Cells, at: map<Entity, Point>, present: map<Entity, Point>) {
    Indexes(cells, Homes(at)) && forall e {:trigger e in present} | e in present :: e in at && at[e] == present[e]
  }

  predicate Within(present: map<Entity, Point>, here: Point, radius: real, e: Entity) {
    e in present && DistanceSquared(present[e], here) <= radius * radius
  }

  /** Whoever is within the radius is among what the query returns. */
  lemma FoundWithin(cells: Cells, at: map<Entity, Point>, present: map<Entity, Point>, here: Point, radius: real,
                    e: Entity)
    requires Current(cells, at, present) && radius >= 0.0 && Within(present, here, radius, e)
    ensures Has(Query(cells, here, radius), e)
  {
    QueryHas(cells, at, here, radius, e);
  }

  // ---------------------------------------------------------------- the nearest neighbor

  /** The square of the distance. */
  function Gap(p: Point, q: Point): real {
    var dx, dy := p.x - q.x, p.y - q.y;
    dx * dx + dy * dy
  }

  /** What a clamp can take: any other tagged node in range. */
  predicate Clampable(present: map<Entity, Point>, tagged: set<Entity>, me: Entity, here: Point, e: Entity) {
    e != me && e in tagged && Within(present, here, CLAMP_RANGE, e)
  }

  ghost predicate Nearest(present: map<Entity, Point>, tagged: set<Entity>, me: Entity, here: Point,
                          among: seq<Entity>, best: Option<Entity>) {
    && (best.Some? ==> Clampable(present, tagged, me, here, best.value))
    && (forall e {:trigger Has(among, e)} | Has(among, e) && Clampable(present, tagged, me, here, e) ::
          best.Some? && DistanceSquared(present[best.value], here) <= DistanceSquared(present[e], here))
  }

  /** The result is nearest among all nodes there are, not only among those the grid returned. */
  method NearestNeighbor(hash: SpatialHash, ghost at: map<Entity, Point>, present: map<Entity, Point>,
                         tagged: set<Entity>,
                         me: Entity, here: Point)
    returns (best: Option<Entity>)
    requires Current(hash.cells, at, present)
    ensures best.Some? ==>
              && best.value != me && best.value in tagged && best.value in present
              && Gap(present[best.value], here) <= 144.0
    ensures forall e | e != me && e in tagged && e in present && Gap(present[e], here) <= 144.0 ::
              best.Some? && best.value in present && Gap(present[best.value], here) <= Gap(present[e], here)
  {
    var near := hash.QueryRadius(here, CLAMP_RANGE);
    best := None;
    for i := 0 to |near|
      invariant Nearest(present, tagged, me, here, near[..i], best)
    {
      var other := near[i];
      ghost var before := best;
      if other != me && other in tagged && other in present {
        var d2 := DistanceSquared(present[other], here);
        if d2 <= CLAMP_RANGE * CLAMP_RANGE && (best.None? || d2 < DistanceSquared(present[best.value], here)) {
          best := Some(other);
        }
      }
      forall e | Has(near[..i + 1], e) && Clampable(present, tagged, me, here, e)
        ensures best.Some? && DistanceSquared(present[best.value], here) <= DistanceSquared(present[e], here)
      {
        assert near[..i + 1] == near[..i] + [other];
        assert Has(near[..i], e) || e == other;
      }
    }
    assert near[..|near|] == near;
    forall e | Clampable(present, tagged, me, here, e)
      ensures best.Some? && DistanceSquared(present[best.value], here) <= DistanceSquared(present[e], here)
    {
      FoundWithin(hash.cells, at, present, here, CLAMP_RANGE, e);
    }
  }

  // ---------------------------------------------------------------- ordering

  type Key = Entity -> real

  ghost predicate Ascending(s: seq<Entity>, key: Key) {
    forall i, j | 0 <= i < j < |s| :: key(s[i]) <= key(s[j])
  }

  lemma InsertAscending(s: seq<Entity>, key: Key, e: Entity, n: nat)
    requires Ascending(s, key) && n <= |s|
    requires n > 0 ==> key(s[n - 1]) <= key(e)
    requires n < |s| ==> key(e) <= key(s[n])
    ensures Ascending(s[..n] + [e] + s[n..], key)
  {
  }

  lemma InsertContents(s: seq<Entity>, e: Entity, n: nat)
    requires n <= |s|
    ensures multiset(s[..n] + [e] + s[n..]) == multiset(s) + multiset{e}
  {
    assert s == s[..n] + s[n..];
  }

  method InsertSorted(s: seq<Entity>, key: Key, e: Entity) returns (r: seq<Entity>)
    requires Ascending(s, key)
    ensures multiset(r) == multiset(s) + multiset{e} && Ascending(r, key)
  {
    var n := |s|;
    while n > 0 && key(s[n - 1]) > key(e)
      invariant 0 <= n <= |s|
      invariant n < |s| ==> key(s[n]) > key(e)
    {
      n := n - 1;
    }
    r := s[..n] + [e] + s[n..];
    InsertAscending(s, key, e, n);
    InsertContents(s, e, n);
  }

  /** Sorting keeps what there is and puts it in order. */
  method SortBy(s: seq<Entity>, key: Key) returns (r: seq<Entity>)
    ensures multiset(r) == multiset(s) && Ascending(r, key)
  {
    r := [];
    for i := 0 to |s|
      invariant multiset(r) == multiset(s[..i]) && Ascending(r, key)
    {
      assert s[..i + 1] == s[..i] + [s[i]];
      r := InsertSorted(r, key, s[i]);
    }
    assert s[..|s|] == s;
  }

  /** Any order that puts the `n` smallest first. */
  method SelectNth(s: seq<Entity>, key: Key, n: nat) returns (r: seq<Entity>)
    requires n <= |s|
    ensures multiset(r) == multiset(s)
    ensures forall i, j | 0 <= i < n <= j < |r| :: key(r[i]) <= key(r[j])
  {
    r := SortBy(s, key);
  }

  // ---------------------------------------------------------------- the observation window

  predicate Visible(present: map<Entity, Point>, me: Entity, here: Point, radius: real, e: Entity) {
    e != me && Within(present, here, radius, e)
  }

  function InRange(present: map<Entity, Point>, me: Entity, here: Point, radius: real): set<Entity> {
    set e | e in present && Visible(present, me, here, radius, e)
  }

  function DistanceKey(present: map<Entity, Point>, here: Point): Key {
    e => if e in present then DistanceSquared(present[e], here) else 0.0
  }

  lemma {:induction false} NoRepeatsSize(s: seq<Entity>, all: set<Entity>)
    requires NoRepeats(s) && forall e :: e in s <==> e in all
    ensures |s| == |all|
  {
    if s != [] {
      var front, last := s[..|s| - 1], s[|s| - 1];
      FrontOnce(s);
      assert s == front + [last];
      assert last in all && forall e :: e in front <==> e in all - {last};
      NoRepeatsSize(front, all - {last});
    }
  }

  lemma {:induction false} SameElements(r: seq<Entity>, s: seq<Entity>)
    requires multiset(r) == multiset(s)
    ensures |r| == |s| && (NoRepeats(s) ==> NoRepeats(r)) && forall e :: e in r <==> e in s
  {
    assert |multiset(r)| == |multiset(s)|;
    forall e ensures e in r <==> e in s { assert e in r <==> multiset(r)[e] > 0; }
  }

  method GatherViews(hash: SpatialHash, ghost at: map<Entity, Point>, present: map<Entity, Point>, me: Entity,
                     here: Point, radius: real)
    returns (views: seq<Entity>)
    requires Current(hash.cells, at, present) && radius >= 0.0
    ensures NoRepeats(views) && forall e :: e in views <==> e in InRange(present, me, here, radius)
  {
    var near := hash.QueryRadius(here, radius);
    QueryComplete(hash.cells, at, here, radius);
    views := [];
    for i := 0 to |near|
      invariant NoRepeats(views)
      invariant forall e {:trigger Has(views, e)} ::
                  Has(views, e) <==> Has(near[..i], e) && Visible(present, me, here, radius, e)
    {
      var other := near[i];
      assert near[..i + 1] == near[..i] + [other];
      PrefixOnce(near, i);
      ghost var before := views;
      if other != me && other in present && DistanceSquared(present[other], here) <= radius * radius {
        assert !Has(before, other);
        NoRepeatsAppend(views, other);
        views := views + [other];
      }
      forall e ensures Has(views, e) <==> Has(near[..i + 1], e) && Visible(present, me, here, radius, e) {
        assert Has(before, e) <==> Has(near[..i], e) && Visible(present, me, here, radius, e);
      }
    }
    assert near[..|near|] == near;
    forall e ensures e in views <==> e in InRange(present, me, here, radius) {
      assert Has(views, e) <==> Has(near, e) && Visible(present, me, here, radius, e);
      if Visible(present, me, here, radius, e) { FoundWithin(hash.cells, at, present, here, radius, e); }
    }
  }

  lemma PrefixOnce(s: seq<Entity>, i: nat)
    requires NoRepeats(s) && i < |s|
    ensures !Has(s[..i], s[i]) && NoRepeats(s[..i])
  {
    if Has(s[..i], s[i]) {
      var k: nat :| k < i && s[k] == s[i];
      NoRepeatsAt(s, k, i);
    }
    assert s == s[..i] + s[i..];
    forall x ensures multiset(s[..i])[x] <= 1 { assert multiset(s)[x] == multiset(s[..i])[x] + multiset(s[i..])[x]; }
  }

  /** The `|chosen|` nearest of all, in no order yet. */
  ghost predicate AreNearest(chosen: seq<Entity>, all: set<Entity>, key: Key) {
    && NoRepeats(chosen)
    && (forall e | e in chosen :: e in all)
    && (forall i, e | 0 <= i < |chosen| && e in all && e !in chosen :: key(chosen[i]) <= key(e))
  }

  method ChooseNearest(views: seq<Entity>, key: Key, keep: nat, ghost all: set<Entity>) returns (chosen: seq<Entity>)
    requires NoRepeats(views) && keep <= |views| && forall e :: e in views <==> e in all
    ensures |chosen| == keep && AreNearest(chosen, all, key)
  {
    if keep == |views| { return views; }
    var split := SelectNth(views, key, keep);
    SameElements(split, views);
    chosen := split[..keep];
    assert split == chosen + split[keep..];
    forall x ensures multiset(chosen)[x] <= 1 {
      assert multiset(split)[x] == multiset(chosen)[x] + multiset(split[keep..])[x];
    }
    forall i, e | 0 <= i < |chosen| && e in all && e !in chosen ensures key(chosen[i]) <= key(e) {
      assert e in split[keep..];
      var j :| keep <= j < |split| && split[j] == e;
      assert split[i] == chosen[i];
    }
  }

  function Least(a: nat, b: nat): nat {
    if a <= b then a else b
  }

  /**
   A window of `k` slots: as many valid ones as there are nodes in range, up to all slots,
   then ghosts; no node twice, the nearer ones first, and nobody left out is nearer.
   */
  ghost predicate IsWindow(window: seq<Option<Entity>>, all: set<Entity>, key: Key, k: nat) {
    && |window| == k
    && (forall i | 0 <= i < k :: window[i].Some? <==> i < Least(k, |all|))
    && (forall i | 0 <= i < k && window[i].Some? :: window[i].value in all)
    && (forall i, j | 0 <= i < j < k && window[i].Some? && window[j].Some? ::
          window[i].value != window[j].value && key(window[i].value) <= key(window[j].value))
    && (forall i, e | 0 <= i < k && window[i].Some? && e in all && Some(e) !in window :: key(window[i].value) <= key(e))
  }

  method NeighborWindow(hash: SpatialHash, ghost at: map<Entity, Point>, present: map<Entity, Point>, me: Entity,
                        here: Point,
                        k: nat, radius: real)
    returns (window: seq<Option<Entity>>)
    requires Current(hash.cells, at, present) && radius >= 0.0
    ensures IsWindow(window, InRange(present, me, here, radius), DistanceKey(present, here), k)
    ensures ShowsNearest(window, present, me, here, k, radius)
  {
    ghost var all := InRange(present, me, here, radius);
    var key := DistanceKey(present, here);
    var views := GatherViews(hash, at, present, me, here, radius);
    NoRepeatsSize(views, all);
    var chosen := ChooseNearest(views, key, Least(k, |views|), all);
    var sorted := SortBy(chosen, key);
    window := FillWindow(sorted, chosen, key, k, all);
    WindowShows(window, present, me, here, k, radius);
  }

  /** Another node, within the radius. */
  predicate Sees(present: map<Entity, Point>, me: Entity, here: Point, radius: real, e: Entity) {
    e != me && e in present && Gap(present[e], here) <= radius * radius
  }

  /** Every slot that is filled shows another node within the radius. */
  ghost predicate OnlySeen(window: seq<Option<Entity>>, present: map<Entity, Point>, me: Entity, here: Point,
                           radius: real) {
    forall i | 0 <= i < |window| && window[i].Some? :: Sees(present, me, here, radius, window[i].value)
  }

  /** The filled slots come first, each with another node, the nearer ones before the others. */
  ghost predicate NearerFirst(window: seq<Option<Entity>>, present: map<Entity, Point>, here: Point) {
    forall i, j | 0 <= i < j < |window| && window[j].Some? ::
      && window[i].Some? && window[i] != window[j]
      && window[i].value in present && window[j].value in present
      && Gap(present[window[i].value], here) <= Gap(present[window[j].value], here)
  }

  /** Whoever is in range and not shown finds the window full, and nobody in it farther. */
  ghost predicate NoneNearer(window: seq<Option<Entity>>, present: map<Entity, Point>, me: Entity, here: Point,
                             radius: real) {
    forall e: Entity, i | Sees(present, me, here, radius, e) && Some(e) !in window && 0 <= i < |window| ::
      window[i].Some? && window[i].value in present && Gap(present[window[i].value], here) <= Gap(present[e], here)
  }

  /** What the window of `k` slots shows: the nearest other nodes within the radius, in order. */
  ghost predicate ShowsNearest(window: seq<Option<Entity>>, present: map<Entity, Point>, me: Entity, here: Point,
                               k: nat, radius: real) {
    && |window| == k && OnlySeen(window, present, me, here, radius) && NearerFirst(window, present, here)
    && NoneNearer(window, present, me, here, radius)
  }

  lemma WindowShows(window: seq<Option<Entity>>, present: map<Entity, Point>, me: Entity, here: Point, k: nat,
                    radius: real)
    requires IsWindow(window, InRange(present, me, here, radius), DistanceKey(present, here), k)
    ensures ShowsNearest(window, present, me, here, k, radius)
  {
    ShownInOrder(window, present, me, here, k, radius);
    forall e: Entity, i | Sees(present, me, here, radius, e) && Some(e) !in window && 0 <= i < |window|
      ensures window[i].Some? && window[i].value in present
      ensures Gap(present[window[i].value], here) <= Gap(present[e], here)
    {
      LeftOut(window, present, me, here, k, radius, e, i);
    }
  }

  lemma LeftOut(window: seq<Option<Entity>>, present: map<Entity, Point>, me: Entity, here: Point, k: nat,
                radius: real, e: Entity, i: nat)
    requires IsWindow(window, InRange(present, me, here, radius), DistanceKey(present, here), k)
    requires Sees(present, me, here, radius, e) && Some(e) !in window && i < k
    ensures window[i].Some? && window[i].value in present
    ensures Gap(present[window[i].value], here) <= Gap(present[e], here)
  {
    var all := InRange(present, me, here, radius);
    InRangeIs(present, me, here, radius, e);
    LeftOutOf(window, all, DistanceKey(present, here), k, e, i);
    InRangeIs(present, me, here, radius, window[i].value);
    KeyIs(present, here, e);
    KeyIs(present, here, window[i].value);
  }

  lemma InRangeIs(present: map<Entity, Point>, me: Entity, here: Point, radius: real, e: Entity)
    ensures e in InRange(present, me, here, radius) <==> Sees(present, me, here, radius, e)
  {
  }

  lemma KeyIs(present: map<Entity, Point>, here: Point, e: Entity)
    requires e in present
    ensures DistanceKey(present, here)(e) == Gap(present[e], here)
  {
  }

  lemma LeftOutOf(window: seq<Option<Entity>>, all: set<Entity>, key: Key, k: nat, e: Entity, i: nat)
    requires IsWindow(window, all, key, k) && e in all && Some(e) !in window && i < k
    ensures window[i].Some? && window[i].value in all && key(window[i].value) <= key(e)
  {
    Missing(window, all, k, e);
  }

  lemma ShownInOrder(window: seq<Option<Entity>>, present: map<Entity, Point>, me: Entity, here: Point, k: nat,
                     radius: real)
    requires IsWindow(window, InRange(present, me, here, radius), DistanceKey(present, here), k)
    ensures OnlySeen(window, present, me, here, radius) && NearerFirst(window, present, here)
  {
    var key := DistanceKey(present, here);
    forall i, j | 0 <= i < j < |window| && window[j].Some?
      ensures window[i].Some? && window[i] != window[j] && window[i].value in present && window[j].value in present
      ensures Gap(present[window[i].value], here) <= Gap(present[window[j].value], here)
    {
      assert key(window[i].value) <= key(window[j].value);
    }
  }

  /** Whoever is left out finds no ghost. */
  lemma Missing(window: seq<Option<Entity>>, all: set<Entity>, k: nat, e: Entity)
    requires |window| == k && e in all && Some(e) !in window
    requires forall i | 0 <= i < k :: window[i].Some? <==> i < Least(k, |all|)
    requires forall i | 0 <= i < k && window[i].Some? :: window[i].value in all
    requires forall i, j | 0 <= i < j < k && window[i].Some? && window[j].Some? :: window[i].value != window[j].value
    ensures Least(k, |all|) == k
  {
    if |all| < k { Crowded(window, all - {e}, |all|); }
  }

  /** Different values need as many places in a set. */
  lemma {:induction false} Crowded(window: seq<Option<Entity>>, all: set<Entity>, n: nat)
    requires n <= |window| && forall i | 0 <= i < n :: window[i].Some? && window[i].value in all
    requires forall i, j | 0 <= i < j < n :: window[i] != window[j]
    ensures n <= |all|
  {
    if n > 0 { Crowded(window, all - {window[n - 1].value}, n - 1); }
  }

  method FillWindow(sorted: seq<Entity>, ghost chosen: seq<Entity>, ghost key: Key, k: nat, ghost all: set<Entity>)
    returns (window: seq<Option<Entity>>)
    requires AreNearest(chosen, all, key) && |chosen| == Least(k, |all|)
    requires multiset(sorted) == multiset(chosen) && Ascending(sorted, key)
    ensures IsWindow(window, all, key, k)
  {
    SameElements(sorted, chosen);
    window := seq(k, _ => None);
    for i := 0 to |sorted|
      invariant |window| == k
      invariant forall j | 0 <= j < k :: window[j] == if j < i then Some(sorted[j]) else None
    {
      window := window[i := Some(sorted[i])];
    }
    forall i, j | 0 <= i < j < |sorted| ensures sorted[i] != sorted[j] { NoRepeatsAt(sorted, i, j); }
    forall j | 0 <= j < |sorted| ensures Some(sorted[j]) in window { assert window[j] == Some(sorted[j]); }
    forall i, e | 0 <= i < |sorted| && e in all && Some(e) !in window ensures key(sorted[i]) <= key(e) {
      assert e !in sorted;
      var c :| 0 <= c < |chosen| && chosen[c] == sorted[i];
    }
  }

  // ---------------------------------------------------------------- magnetic pairs

  datatype Vector = Vector(x: real, y: real)

  const ZERO := Vector(0.0, 0.0)

  function Plus(a: Vector, b: Vector): Vector {
    Vector(a.x + b.x, a.y + b.y)
  }

  function Minus(a: Vector): Vector {
    Vector(-a.x, -a.y)
  }

  datatype Pair = Pair(first: Entity, second: Entity)

  /** Two magnetic nodes in range of each other, the older one first. */
  predicate Meet(present: map<Entity, Point>, magnetic: seq<Entity>, p: Pair)
    requires forall e | e in magnetic :: e in present
  {
    && p.first < p.second && p.first in magnetic && p.second in magnetic
    && Spread(present[p.second], present[p.first]) <= MAGNETIC_RANGE * MAGNETIC_RANGE
  }

  function Spread(p: Point, q: Point): real {
    if DistanceSquared(p, q) < 0.25 then 0.25 else DistanceSquared(p, q)
  }

  /** All forces together. */
  function Total(forces: map<Entity, Vector>, order: seq<Entity>): Vector
    requires forall e | e in order :: e in forces
  {
    if order == [] then ZERO
    else
      var rest, last := Total(forces, order[..|order| - 1]), forces[order[|order| - 1]];
      Vector(rest.x + last.x, rest.y + last.y)
  }

  lemma {:induction false} TotalSame(a: map<Entity, Vector>, b: map<Entity, Vector>, order: seq<Entity>)
    requires forall e | e in order :: e in a && e in b && a[e] == b[e]
    ensures Total(a, order) == Total(b, order)
  {
    if order != [] { TotalSame(a, b, order[..|order| - 1]); }
  }

  /** A force on one node adds to the total. */
  lemma {:induction false} TotalPush(forces: map<Entity, Vector>, order: seq<Entity>, e: Entity, f: Vector)
    requires NoRepeats(order) && e in order && forall x | x in order :: x in forces
    ensures Total(forces[e := Plus(forces[e], f)], order) == Plus(Total(forces, order), f)
  {
    var front, last := order[..|order| - 1], order[|order| - 1];
    FrontOnce(order);
    assert order == front + [last];
    if last == e {
      TotalSame(forces, forces[e := Plus(forces[e], f)], front);
    } else {
      TotalPush(forces, front, e, f);
    }
  }

  /** Equal and opposite forces leave the total as it is. */
  lemma TotalPull(forces: map<Entity, Vector>, order: seq<Entity>, p: Pair, f: Vector)
    requires NoRepeats(order) && p.first in order && p.second in order && p.first != p.second
    requires forall x | x in order :: x in forces
    ensures var pushed := forces[p.first := Plus(forces[p.first], f)];
            Total(pushed[p.second := Plus(pushed[p.second], Minus(f))], order) == Total(forces, order)
  {
    TotalPush(forces, order, p.first, f);
    TotalPush(forces[p.first := Plus(forces[p.first], f)], order, p.second, Minus(f));
  }

  /** The pairs that the first magnetic nodes, and so far their last, have met. */
  ghost predicate Met(pairs: seq<Pair>, present: map<Entity, Point>, magnetic: seq<Entity>, i: nat, near: seq<Entity>)
    requires forall e | e in magnetic :: e in present
    requires i <= |magnetic|
  {
    && NoRepeats(pairs)
    && forall p {:trigger Has(pairs, p)} :: Has(pairs, p) <==>
         && Meet(present, magnetic, p)
         && (Has(magnetic[..i], p.first) || (i < |magnetic| && p.first == magnetic[i] && Has(near, p.second)))
  }

  ghost predicate Balanced(forces: map<Entity, Vector>, magnetic: seq<Entity>) {
    (forall e | e in magnetic :: e in forces) && Total(forces, magnetic) == ZERO
  }

  lemma {:induction false} TotalStill(forces: map<Entity, Vector>, order: seq<Entity>)
    requires forall e | e in order :: e in forces && forces[e] == ZERO
    ensures Total(forces, order) == ZERO
  {
    if order != [] { TotalStill(forces, order[..|order| - 1]); }
  }

  /** What a node has been pulled by: each pair it is the first of pulls it, each it is the second of the other way. */
  function Exerted(pairs: seq<Pair>, pull: Pair -> Vector, e: Entity): Vector {
    if pairs == [] then ZERO
    else
      var rest, p := Exerted(pairs[..|pairs| - 1], pull, e), pairs[|pairs| - 1];
      if p.first == e then Vector(rest.x + pull(p).x, rest.y + pull(p).y)
      else if p.second == e then Vector(rest.x - pull(p).x, rest.y - pull(p).y) else rest
  }

  ghost predicate Pulled(forces: map<Entity, Vector>, magnetic: seq<Entity>, pairs: seq<Pair>, pull: Pair -> Vector) {
    forall e | e in magnetic :: e in forces && forces[e] == Exerted(pairs, pull, e)
  }

  lemma PulledMore(forces: map<Entity, Vector>, magnetic: seq<Entity>, pairs: seq<Pair>, pull: Pair -> Vector, p: Pair)
    requires Pulled(forces, magnetic, pairs, pull) && p.first != p.second && p.first in magnetic && p.second in magnetic
    ensures var pushed := forces[p.first := Plus(forces[p.first], pull(p))];
            Pulled(pushed[p.second := Plus(pushed[p.second], Minus(pull(p)))], magnetic, pairs + [p], pull)
  {
    assert (pairs + [p])[..|pairs|] == pairs;
  }

  /** What a node does to each node the query returned for it. */
  method PullNear(present: map<Entity, Point>, magnetic: seq<Entity>, i: nat, near: seq<Entity>, pull: Pair -> Vector,
                  before: map<Entity, Vector>, ghost met: seq<Pair>)
    returns (forces: map<Entity, Vector>, ghost pairs: seq<Pair>)
    requires NoRepeats(magnetic) && (forall e | e in magnetic :: e in present) && i < |magnetic| && NoRepeats(near)
    requires Balanced(before, magnetic) && Met(met, present, magnetic, i, []) && Pulled(before, magnetic, met, pull)
    ensures Balanced(forces, magnetic) && Met(pairs, present, magnetic, i, near)
    ensures Pulled(forces, magnetic, pairs, pull)
  {
    forces, pairs := before, met;
    PrefixOnce(magnetic, i);
    for j := 0 to |near|
      invariant Balanced(forces, magnetic) && Met(pairs, present, magnetic, i, near[..j])
      invariant Pulled(forces, magnetic, pairs, pull)
    {
      var other := near[j];
      var p := Pair(magnetic[i], other);
      ghost var earlier := pairs;
      PrefixOnce(near, j);
      assert near[..j + 1] == near[..j] + [other];
      if p.first < other && other in magnetic
          && Spread(present[other], present[p.first]) <= MAGNETIC_RANGE * MAGNETIC_RANGE {
        var f := pull(p);
        TotalPull(forces, magnetic, p, f);
        PulledMore(forces, magnetic, pairs, pull, p);
        forces := forces[p.first := Plus(forces[p.first], f)];
        forces := forces[other := Plus(forces[other], Minus(f))];
        assert !Has(earlier, p);
        NoRepeatsAppend(pairs, p);
        pairs := pairs + [p];
      }
      forall q
        ensures Has(pairs, q) <==>
                && Meet(present, magnetic, q)
                && (Has(magnetic[..i], q.first) || (q.first == magnetic[i] && Has(near[..j + 1], q.second)))
      {
        assert Has(earlier, q) <==>
               && Meet(present, magnetic, q)
               && (Has(magnetic[..i], q.first) || (q.first == magnetic[i] && Has(near[..j], q.second)));
      }
    }
    assert near[..|near|] == near;
  }

  lemma NextMagnetic(cells: Cells, at: map<Entity, Point>, present: map<Entity, Point>, magnetic: seq<Entity>, i: nat,
                     pairs: seq<Pair>)
    requires Current(cells, at, present) && (forall e | e in magnetic :: e in present) && i < |magnetic|
    requires Met(pairs, present, magnetic, i, Query(cells, present[magnetic[i]], MAGNETIC_RANGE))
    ensures Met(pairs, present, magnetic, i + 1, [])
  {
    var near := Query(cells, present[magnetic[i]], MAGNETIC_RANGE);
    assert magnetic[..i + 1] == magnetic[..i] + [magnetic[i]];
    forall p
      ensures Has(pairs, p) <==> Meet(present, magnetic, p) && Has(magnetic[..i + 1], p.first)
    {
      if Meet(present, magnetic, p) && p.first == magnetic[i] {
        FoundWithin(cells, at, present, present[p.first], MAGNETIC_RANGE, p.second);
      }
    }
  }

  lemma AllMet(pairs: seq<Pair>, present: map<Entity, Point>, magnetic: seq<Entity>)
    requires (forall e | e in magnetic :: e in present) && Met(pairs, present, magnetic, |magnetic|, [])
    ensures forall p {:trigger Has(pairs, p)} :: Has(pairs, p) <==> Meet(present, magnetic, p)
  {
  }

  /**
   Every unordered pair of magnetic nodes within ten units interacts exactly once; each node ends
   up with the pulls of its own pairs and no others, equal and opposite on the two sides; so all
   magnetic forces together come to nothing, whatever the pull between two nodes is.
   */
  method ApplyMagneticForces(hash: SpatialHash, ghost at: map<Entity, Point>, present: map<Entity, Point>,
                             magnetic: seq<Entity>, pull: Pair -> Vector)
    returns (forces: map<Entity, Vector>, ghost pairs: seq<Pair>)
    requires Current(hash.cells, at, present) && NoRepeats(magnetic) && forall e | e in magnetic :: e in present
    ensures NoRepeats(pairs)
    ensures forall p {:trigger Has(pairs, p)} :: Has(pairs, p) <==>
              p.first < p.second && p.first in magnetic && p.second in magnetic
              && Gap(present[p.second], present[p.first]) <= 100.0
    ensures forall e | e in magnetic :: e in forces && forces[e] == Exerted(pairs, pull, e)
    ensures Total(forces, magnetic) == ZERO
  {
    forces := map e | e in magnetic :: ZERO;
    TotalStill(forces, magnetic);
    pairs := [];
    for i := 0 to |magnetic|
      invariant Balanced(forces, magnetic) && Met(pairs, present, magnetic, i, [])
      invariant Pulled(forces, magnetic, pairs, pull)
    {
      var near := hash.QueryRadius(present[magnetic[i]], MAGNETIC_RANGE);
      QueryComplete(hash.cells, at, present[magnetic[i]], MAGNETIC_RANGE);
      forces, pairs := PullNear(present, magnetic, i, near, pull, forces, pairs);
      NextMagnetic(hash.cells, at, present, magnetic, i, pairs);
    }
    AllMet(pairs, present, magnetic);
  }
}
