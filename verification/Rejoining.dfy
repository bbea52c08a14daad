/**
 How a restored world makes its clamp joints: one after another, in the order of the nodes,
 each for a clamp whose target came back.
 */
module Rejoining {
  import opened Wrappers
  import opened World

  /** What is to be made for each node, in order. */
  type Links = seq<Option<Joint>>

  /** The number of joints made for the first `i` nodes. */
  function Made(links: Links, i: nat): nat
    requires i <= |links|
  {
    if i == 0 then 0 else Made(links, i - 1) + if links[i - 1].Some? then 1 else 0
  }

  /** Those joints, numbered from `base`. */
  function JointsFrom(links: Links, base: nat, i: nat): map<Entity, Joint>
    requires i <= |links|
  {
    if i == 0 then map[]
    else if links[i - 1].None? then JointsFrom(links, base, i - 1)
    else JointsFrom(links, base, i - 1)[base + Made(links, i - 1) := links[i - 1].value]
  }

  /** Which of the first `i` joints was made last for this owner. */
  function LatestOf(links: Links, i: nat, owner: Entity): (latest: Option<nat>)
    requires i <= |links|
    ensures latest.Some? ==> latest.value < i && links[latest.value].Some? && links[latest.value].value.owner == owner
  {
    if i == 0 then None
    else if links[i - 1].Some? && links[i - 1].value.owner == owner then Some(i - 1)
    else LatestOf(links, i - 1, owner)
  }

  /** What the first `i` joints leave in the hand of an owner whose clamp has that cooldown. */
  function GripLeft(links: Links, base: nat, i: nat, owner: Entity, cooldown: real): Clamp
    requires i <= |links|
  {
    var latest := LatestOf(links, i, owner);
    if latest.None? then Clamp(None, None, cooldown)
    else Clamp(Some(links[latest.value].value.target), Some(base + Made(links, latest.value)), cooldown)
  }

  /** An owner's last joint, if no later one is its own. */
  lemma {:induction false} LatestIs(links: Links, i: nat, owner: Entity, latest: nat)
    requires latest < i <= |links| && links[latest].Some? && links[latest].value.owner == owner
    requires forall k | latest < k < i && links[k].Some? :: links[k].value.owner != owner
    ensures LatestOf(links, i, owner) == Some(latest)
  {
    if latest < i - 1 { LatestIs(links, i - 1, owner, latest); }
  }

  lemma {:induction false} MadeGrows(links: Links, i: nat, j: nat)
    requires i < j <= |links|
    ensures Made(links, i) <= Made(links, j)
    ensures links[i].Some? ==> Made(links, i) < Made(links, j)
  {
    if i < j - 1 { MadeGrows(links, i, j - 1); }
  }

  lemma {:induction false} JointsHave(links: Links, base: nat, n: nat, i: nat)
    requires i < n <= |links| && links[i].Some?
    ensures base + Made(links, i) in JointsFrom(links, base, n)
    ensures JointsFrom(links, base, n)[base + Made(links, i)] == links[i].value
  {
    if i < n - 1 {
      JointsHave(links, base, n - 1, i);
      MadeGrows(links, i, n - 1);
    }
  }

  lemma {:induction false} JointsOnly(links: Links, base: nat, n: nat, j: Entity) returns (i: nat)
    requires n <= |links| && j in JointsFrom(links, base, n)
    ensures i < n && links[i].Some? && j == base + Made(links, i)
    ensures JointsFrom(links, base, n)[j] == links[i].value
  {
    if links[n - 1].Some? && j == base + Made(links, n - 1) {
      i := n - 1;
    } else {
      i := JointsOnly(links, base, n - 1, j);
    }
  }

  /** Different joints have different numbers. */
  lemma MadeOnce(links: Links, i: nat, k: nat)
    requires i < |links| && k < |links| && links[i].Some? && links[k].Some? && Made(links, i) == Made(links, k)
    ensures i == k
  {
    if i < k { MadeGrows(links, i, k); } else if k < i { MadeGrows(links, k, i); }
  }

  /** The i-th joint is in its owner's hand exactly if the owner made no later one. */
  lemma GripsLatest(links: Links, base: nat, i: nat, cooldown: real)
    requires i < |links| && links[i].Some?
    ensures var owner := links[i].value.owner;
            GripLeft(links, base, |links|, owner, cooldown).joint == Some(base + Made(links, i))
            <==> LatestOf(links, |links|, owner) == Some(i)
  {
    var latest := LatestOf(links, |links|, links[i].value.owner);
    if latest.Some? && Made(links, latest.value) == Made(links, i) { MadeOnce(links, latest.value, i); }
  }

  /** A joint in hand is live, and is its holder's on its target. */
  lemma GripsLive(links: Links, base: nat, owner: Entity, cooldown: real)
    ensures var c := GripLeft(links, base, |links|, owner, cooldown);
            && (c.target.Some? <==> c.joint.Some?)
            && (c.joint.Some? ==>
                  && c.joint.value in JointsFrom(links, base, |links|)
                  && JointsFrom(links, base, |links|)[c.joint.value] == Joint(owner, c.target.value))
  {
    var latest := LatestOf(links, |links|, owner);
    if latest.Some? { JointsHave(links, base, |links|, latest.value); }
  }

  type Hands = map<Entity, Clamp>

  /** What the joints leave in the hands of those that have any. */
  ghost predicate LeftIn(links: Links, base: nat, hands: Hands) {
    forall e | e in hands :: hands[e] == GripLeft(links, base, |links|, e, hands[e].cooldown)
  }

  predicate InHand(joint: Joint, j: Entity, hands: Hands) {
    joint.owner in hands && hands[joint.owner].joint == Some(j)
  }

  /** The owner of the i-th joint has a hand for it, and made no later joint. */
  predicate Grasped(links: Links, hands: Hands, i: nat)
    requires i < |links| && links[i].Some?
  {
    links[i].value.owner in hands && LatestOf(links, |links|, links[i].value.owner) == Some(i)
  }

  lemma GraspedOne(links: Links, base: nat, hands: Hands, i: nat)
    requires LeftIn(links, base, hands) && i < |links| && links[i].Some?
    ensures base + Made(links, i) in JointsFrom(links, base, |links|)
    ensures InHand(JointsFrom(links, base, |links|)[base + Made(links, i)], base + Made(links, i), hands)
            <==> Grasped(links, hands, i)
  {
    JointsHave(links, base, |links|, i);
    if links[i].value.owner in hands { GripsLatest(links, base, i, hands[links[i].value.owner].cooldown); }
  }

  /** All joints are in their owners' hands exactly if each can be grasped. */
  lemma GraspedExactly(links: Links, base: nat, hands: Hands)
    requires LeftIn(links, base, hands)
    ensures var joints := JointsFrom(links, base, |links|);
            (forall j | j in joints :: InHand(joints[j], j, hands))
            <==> forall i: nat | i < |links| && links[i].Some? :: Grasped(links, hands, i)
  {
    var joints := JointsFrom(links, base, |links|);
    if forall j | j in joints :: InHand(joints[j], j, hands) {
      forall i: nat | i < |links| && links[i].Some? ensures Grasped(links, hands, i) {
        GraspedOne(links, base, hands, i);
        assert InHand(joints[base + Made(links, i)], base + Made(links, i), hands);
      }
    }
    if forall i: nat | i < |links| && links[i].Some? :: Grasped(links, hands, i) {
      forall j | j in joints ensures InHand(joints[j], j, hands) {
        var i := JointsOnly(links, base, |links|, j);
        GraspedOne(links, base, hands, i);
        assert Grasped(links, hands, i);
      }
    }
  }
}
