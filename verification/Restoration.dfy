/**
 Restoring in the middle of a run: the nodes come back under new numbers, in the order of
 their stable identities, and the clamps whose targets are there are joined again. Agents
 without a controller come back as inert matter.
 */
module Restoration {
  import opened Wrappers
  import opened Energy
  import opened World
  import opened Failure
  import opened Lineage
  import opened Genesis
  import opened Orders
  import opened Rejoining

  ghost predicate Enumerates(order: seq<Entity>, w: World) {
    MeetsAll(order, w.nodes.Keys)
  }

  /** The joint for the i-th node: its clamp had a target, and the target comes back. */
  function LinkAt(w: World, order: seq<Entity>, i: nat): Option<Joint>
    requires i < |order|
  {
    var target := GripOf(w, order[i]).target;
    var place := if target.Some? then PlaceOf(order, target.value) else None;
    if place.Some? then Some(Joint(i, place.value)) else None
  }

  function LinksOf(w: World, order: seq<Entity>): (links: Links)
    ensures |links| == |order| && forall i | 0 <= i < |order| :: links[i] == LinkAt(w, order, i)
  {
    seq(|order|, i requires 0 <= i < |order| => LinkAt(w, order, i))
  }

  function Rejoined(w: World, order: seq<Entity>, i: nat, cooldown: real): Clamp {
    GripLeft(LinksOf(w, order), |order|, |order|, i, cooldown)
  }

  function RebornAgent(w: World, order: seq<Entity>, i: nat, a: Agent): Agent {
    a.(clamp := Rejoined(w, order, i, a.clamp.cooldown))
  }

  function Reborn(w: World, order: seq<Entity>, supplied: set<Entity>, i: nat): Node
    requires i < |order| && order[i] in w.nodes
  {
    var n := w.nodes[order[i]];
    n.(stress := 0.0,
       agent := if n.agent.Some? && order[i] in supplied then Some(RebornAgent(w, order, i, n.agent.value)) else None)
  }

  function RebornNodes(w: World, order: seq<Entity>, supplied: set<Entity>): map<Entity, Node> {
    map i: nat | i < |order| && order[i] in w.nodes :: Reborn(w, order, supplied, i)
  }

  function RemadeJoints(w: World, order: seq<Entity>): map<Entity, Joint> {
    JointsFrom(LinksOf(w, order), |order|, |order|)
  }

  function Restored(w: World, order: seq<Entity>, supplied: set<Entity>): World {
    var joints := RemadeJoints(w, order);
    World(RebornNodes(w, order, supplied), joints, |order| + Made(LinksOf(w, order), |order|), [], [], w.step, w.chunks,
          map[], [], map j | j in joints :: joints[j].owner, {}, w.books)
  }

  // ---------------------------------------------------------------- totals do not depend on numbers

  function TotalAlong(nodes: map<Entity, Node>, order: seq<Entity>): Totals
  {
    if order == [] then NOTHING
    else if order[|order| - 1] !in nodes then TotalAlong(nodes, order[..|order| - 1])
    else Add(TotalAlong(nodes, order[..|order| - 1]), Weigh(nodes[order[|order| - 1]]))
  }

  lemma {:induction false} TotalsAgree(a: map<Entity, Node>, b: map<Entity, Node>, order: seq<Entity>)
    requires forall e | Meets(order, e) :: AgreeAt(a, b, e)
    ensures TotalAlong(a, order) == TotalAlong(b, order)
  {
    if order != [] {
      var front := order[..|order| - 1];
      assert order == front + [order[|order| - 1]];
      assert Meets(order, order[|order| - 1]);
      forall e | Meets(front, e) ensures AgreeAt(a, b, e) { assert Meets(order, e); }
      TotalsAgree(a, b, front);
    }
  }

  lemma {:induction false} SumOfNone(nodes: map<Entity, Node>, n: nat)
    requires nodes == map[]
    ensures Sum(nodes, n) == NOTHING
  {
    if n > 0 { SumOfNone(nodes, n - 1); }
  }

  /** The sum over the numbers is the sum along any order of the nodes. */
  lemma {:induction false} SumAlong(nodes: map<Entity, Node>, order: seq<Entity>, n: nat)
    requires MeetsAll(order, nodes.Keys) && forall e | e in nodes :: e < n
    ensures Sum(nodes, n) == TotalAlong(nodes, order)
  {
    if order == [] {
      assert forall e :: e in nodes.Keys <==> Meets(order, e);
      assert nodes == map[];
      SumOfNone(nodes, n);
    } else {
      var front, last := order[..|order| - 1], order[|order| - 1];
      var rest := nodes - {last};
      FrontMeets(order, nodes.Keys);
      assert rest.Keys == nodes.Keys - {last};
      SumAlong(rest, front, n);
      forall e | Meets(front, e) ensures AgreeAt(nodes, rest, e) { assert e in rest.Keys; }
      TotalsAgree(nodes, rest, front);
      forall e: Entity | e < n && e != last ensures AgreeAt(nodes, rest, e) {}
      SumWithout(nodes, rest, last, n);
    }
  }

  lemma {:induction false} RebornSums(w: World, order: seq<Entity>, supplied: set<Entity>, k: nat)
    requires k <= |order| && Enumerates(order, w)
    ensures Sum(RebornNodes(w, order, supplied), k) == TotalAlong(w.nodes, order[..k])
  {
    if k > 0 {
      RebornSums(w, order, supplied, k - 1);
      assert order[..k][..k - 1] == order[..k - 1];
      assert Meets(order, order[k - 1]);
      assert Weigh(Reborn(w, order, supplied, k - 1)) == Weigh(w.nodes[order[k - 1]]);
    }
  }

  lemma {:induction false} SumBeyond(nodes: map<Entity, Node>, m: nat, n: nat)
    requires m <= n && forall e | e in nodes :: e < m
    ensures Sum(nodes, n) == Sum(nodes, m)
  {
    if m < n { SumBeyond(nodes, m, n - 1); }
  }

  /** Restoring conserves everything there is. */
  lemma RestoredConserves(w: World, order: seq<Entity>, supplied: set<Entity>)
    requires Keyed(w) && Enumerates(order, w)
    ensures Conserves(w, Restored(w, order, supplied))
  {
    var z := Restored(w, order, supplied);
    SumAlong(w.nodes, order, w.next);
    RebornSums(w, order, supplied, |order|);
    assert order[..|order|] == order;
    SumBeyond(z.nodes, |order|, z.next);
    SameTotals(w, z);
  }

  lemma SameTotals(w: World, z: World)
    requires Sum(w.nodes, w.next) == Sum(z.nodes, z.next) && w.books == z.books
    ensures Conserves(w, z)
  {
  }

  // ---------------------------------------------------------------- what comes back is in order

  /** The link of the i-th node is the only one it owns. */
  lemma OwnLink(w: World, order: seq<Entity>, i: nat, n: nat)
    requires i < |order| && n <= |order|
    ensures LatestOf(LinksOf(w, order), n, i) == if i < n && LinkAt(w, order, i).Some? then Some(i) else None
  {
    if i < n && LinkAt(w, order, i).Some? { LatestIs(LinksOf(w, order), n, i, i); }
  }

  /** The hand of a restored agent: it holds what it held, if that came back. */
  lemma RejoinedIs(w: World, order: seq<Entity>, i: nat, cooldown: real)
    requires i < |order|
    ensures Rejoined(w, order, i, cooldown) ==
            match LinkAt(w, order, i)
            case None => Clamp(None, None, cooldown)
            case Some(joint) => Clamp(Some(joint.target), Some(|order| + Made(LinksOf(w, order), i)), cooldown)
  {
    OwnLink(w, order, i, |order|);
  }

  lemma RebornOk(w: World, order: seq<Entity>, supplied: set<Entity>, i: nat)
    requires NodesOk(w) && i < |order| && order[i] in w.nodes
    ensures NodeOk(Reborn(w, order, supplied, i))
  {
    assert NodeOk(w.nodes[order[i]]);
    RejoinedIs(w, order, i, GripOf(w, order[i]).cooldown);
  }

  /** What a restored node holds. */
  lemma RestoredGrip(w: World, order: seq<Entity>, supplied: set<Entity>, i: nat)
    requires Enumerates(order, w) && i < |order|
    ensures order[i] in w.nodes && i in RebornNodes(w, order, supplied)
    ensures var z, link := Restored(w, order, supplied), LinkAt(w, order, i);
            if order[i] in supplied && link.Some?
            then GripOf(z, i).target == Some(link.value.target)
                && Held(z, i) == Some(|order| + Made(LinksOf(w, order), i))
            else Held(z, i).None?
  {
    assert Meets(order, order[i]);
    RejoinedIs(w, order, i, GripOf(w, order[i]).cooldown);
  }

  lemma RestoredHold(w: World, order: seq<Entity>, supplied: set<Entity>, i: nat)
    requires Enumerates(order, w) && i < |order|
    ensures HoldOk(Restored(w, order, supplied), i)
  {
    RestoredGrip(w, order, supplied, i);
    if LinkAt(w, order, i).Some? {
      JointsHave(LinksOf(w, order), |order|, |order|, i);
      MadeGrows(LinksOf(w, order), i, |order|);
    }
  }

  lemma RestoredLive(w: World, order: seq<Entity>, supplied: set<Entity>, j: Entity)
    requires Enumerates(order, w) && j in RemadeJoints(w, order)
    ensures var z := Restored(w, order, supplied);
            && |order| <= j < z.next && z.joints[j].owner in z.nodes && z.joints[j].target in z.nodes
            && LinkAt(w, order, z.joints[j].owner).Some?
            && j == |order| + Made(LinksOf(w, order), z.joints[j].owner)
  {
    var links := LinksOf(w, order);
    var i := JointsOnly(links, |order|, |order|, j);
    MadeGrows(links, i, |order|);
    assert Meets(order, order[i]) && Meets(order, order[links[i].value.target]);
  }

  lemma RestoredGood(w: World, order: seq<Entity>, supplied: set<Entity>)
    requires NodesOk(w) && Enumerates(order, w)
    ensures Good(Restored(w, order, supplied))
  {
    var z := Restored(w, order, supplied);
    forall i | i in z.nodes ensures NodeOk(z.nodes[i]) && HoldOk(z, i) {
      assert Meets(order, order[i]);
      RebornOk(w, order, supplied, i);
      RestoredHold(w, order, supplied, i);
    }
    forall j | j in z.joints
      ensures j < z.next && j !in z.nodes && z.joints[j].owner in z.nodes && z.joints[j].target in z.nodes
    {
      RestoredLive(w, order, supplied, j);
    }
  }

  /** An agent whose joint is made again needs its controller to take hold of it. */
  predicate Grasps(w: World, e: Entity) {
    IsAgent(w, e) && GripOf(w, e).target.Some? && GripOf(w, e).target.value in w.nodes
  }

  lemma GraspsLinks(w: World, order: seq<Entity>, i: nat)
    requires Enumerates(order, w) && i < |order|
    ensures LinkAt(w, order, i).Some? <==> Grasps(w, order[i])
  {
    assert Meets(order, order[i]);
  }

  /**
   When joints and grips correspond one to one at once, before any cleanup: exactly if the
   controller of every agent that held a node still there is supplied. Whatever is supplied,
   the first cleanup makes them.
   */
  lemma RestoredExact(w: World, order: seq<Entity>, supplied: set<Entity>)
    requires NodesOk(w) && Enumerates(order, w)
    ensures JointsExact(Restored(w, order, supplied)) <==> forall e | e in w.nodes && Grasps(w, e) :: e in supplied
  {
    var z := Restored(w, order, supplied);
    RestoredGood(w, order, supplied);
    if JointsExact(z) {
      forall e | e in w.nodes && Grasps(w, e) ensures e in supplied {
        assert Meets(order, e);
        var i := PlaceOf(order, e).value;
        GraspsLinks(w, order, i);
        JointsHave(LinksOf(w, order), |order|, |order|, i);
        RestoredGrip(w, order, supplied, i);
      }
    }
    if forall e | e in w.nodes && Grasps(w, e) :: e in supplied {
      RestoredMatches(w, order, supplied);
    }
  }

  lemma RestoredMatches(w: World, order: seq<Entity>, supplied: set<Entity>)
    requires NodesOk(w) && Enumerates(order, w) && forall e | e in w.nodes && Grasps(w, e) :: e in supplied
    ensures JointsExact(Restored(w, order, supplied))
  {
    var z := Restored(w, order, supplied);
    RestoredGood(w, order, supplied);
    forall j | j in z.joints ensures Held(z, z.joints[j].owner) == Some(j) {
      RestoredLive(w, order, supplied, j);
      var i := z.joints[j].owner;
      GraspsLinks(w, order, i);
      RestoredGrip(w, order, supplied, i);
    }
    forall i | i in z.nodes && Held(z, i).Some? ensures Held(z, i).value in z.joints {
      RestoredGrip(w, order, supplied, i);
      JointsHave(LinksOf(w, order), |order|, |order|, i);
    }
  }

  // ---------------------------------------------------------------- chunks and history

  /** Terrain comes back in its chunks. */
  lemma {:induction false} SamePlaces(order: seq<Entity>, before: set<Entity>, after: set<Entity>, n: nat)
    requires MeetsOnce(order) && n <= |order|
    requires forall i | i in after :: i < n && order[i] in before
    ensures |after| <= |before|
  {
    if n == 0 {
      assert after == {};
    } else if n - 1 in after {
      var e := order[n - 1];
      forall i | i in after - {n - 1} ensures i < n - 1 && order[i] in before - {e} {
        assert i < n && !MeetsTwice(order, i, n - 1);
      }
      SamePlaces(order, before - {e}, after - {n - 1}, n - 1);
    } else {
      SamePlaces(order, before, after, n - 1);
    }
  }

  lemma RestoredChunks(w: World, order: seq<Entity>, supplied: set<Entity>)
    requires Enumerates(order, w) && ChunksOk(w)
    ensures ChunksOk(Restored(w, order, supplied))
  {
    var z := Restored(w, order, supplied);
    forall i | i in z.nodes ensures order[i] in w.nodes && z.nodes[i].origin == w.nodes[order[i]].origin {}
    forall c ensures |OriginSet(z, c)| <= TERRAIN_PER_CHUNK {
      SamePlaces(order, OriginSet(w, c), OriginSet(z, c), |order|);
    }
  }

  /** A restored world is in order, whatever controllers are supplied. */
  lemma RestoredOk(w: World, order: seq<Entity>, supplied: set<Entity>)
    requires Good(w) && ChunksOk(w) && Enumerates(order, w)
    ensures var z := Restored(w, order, supplied);
            Good(z) && ChunksOk(z) && RecordsOk(z) && Conserves(w, z)
  {
    RestoredGood(w, order, supplied);
    RestoredChunks(w, order, supplied);
    RestoredConserves(w, order, supplied);
  }
}
