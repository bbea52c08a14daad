/** The order in which a query meets entities: each of them once. */
module Orders {
  import opened Wrappers

  predicate MeetsTwice(order: seq<nat>, i: nat, j: nat) {
    i < j < |order| && order[i] == order[j]
  }

  predicate Meets(order: seq<nat>, e: nat) {
    e in order
  }

  ghost predicate MeetsOnce(order: seq<nat>) {
    forall i: nat, j: nat {:trigger MeetsTwice(order, i, j)} :: !MeetsTwice(order, i, j)
  }

  ghost predicate MeetsAll(order: seq<nat>, all: set<nat>) {
    MeetsOnce(order) && forall e: nat {:trigger Meets(order, e)} :: Meets(order, e) <==> e in all
  }

  /** Where an entity is met. */
  function PlaceOf(order: seq<nat>, e: nat): (place: Option<nat>)
    ensures place.Some? ==> place.value < |order| && order[place.value] == e
    ensures place.Some? <==> Meets(order, e)
  {
    if order == [] then None
    else if order[|order| - 1] == e then Some(|order| - 1)
    else
      assert order == order[..|order| - 1] + [order[|order| - 1]];
      PlaceOf(order[..|order| - 1], e)
  }

  lemma FrontMeets(order: seq<nat>, all: set<nat>)
    requires MeetsAll(order, all) && order != []
    ensures MeetsAll(order[..|order| - 1], all - {order[|order| - 1]}) && order[|order| - 1] in all
  {
    var front, last := order[..|order| - 1], order[|order| - 1];
    assert order == front + [last];
    forall i: nat, j: nat ensures !MeetsTwice(front, i, j) { assert !MeetsTwice(order, i, j); }
    forall e ensures Meets(front, e) <==> e in all - {last} {
      assert Meets(order, e) <==> e in all;
      if Meets(front, e) {
        var i: nat :| i < |front| && front[i] == e;
        assert !MeetsTwice(order, i, |order| - 1);
      }
    }
    assert Meets(order, last);
  }
}
