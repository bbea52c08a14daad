/**
 A session that is saved and resumed: capturing the live world and restoring the snapshot is
 the restore event of the simulation, so what is proved of all runs covers saved ones.
 */
module Sessions {
  import opened Wrappers
  import opened Energy
  import opened Orders
  import opened Rejoining
  import W = World
  import S = Snapshot
  import R = Restoration
  import Genesis
  import Simulation

  type Entity = W.Entity

  // ---------------------------------------------------------------- what the simulation sees of a live world

  function Bit(tag: W.Tag): nat {
    match tag
    case EnergyConvertible => 0x01
    case ClampCapable => 0x02
    case Shelter => 0x04
    case ThermalVent => 0x08
    case VolatileTrap => 0x10
    case Magnetic => 0x20
    case AgentTag => 0x40
    case OscillatorTag => 0x80
  }

  function TagsOf(bits: nat): set<W.Tag> {
    set tag: W.Tag | bits / Bit(tag) % 2 == 1
  }

  function LedgerOf(c: S.Components): Ledger {
    if c.history.Some? then c.history.value.ledger else BLANK
  }

  function AgentOf(c: S.Components): Option<W.Agent> {
    if c.marker.None? then None
    else
      var clocks := S.OrElse(c.reproduction, S.Reproduction(0.0, 0.0));
      Some(W.Agent(S.OrElse(c.clamp, W.UNCLAMPED), S.OrElse(c.fabricate, 0.0), clocks.surplus, clocks.cooldown,
                   c.marker.value.generation))
  }

  /** The energy a node was created with is what its books do not explain. */
  function NodeOf(c: S.Components): W.Node {
    W.Node(Account(c.body.energy, LedgerOf(c)), c.body.energy - Net(LedgerOf(c)), c.body.mass, c.body.structure,
           c.yieldAt, c.stress, c.conductivity, TagsOf(c.tags), c.placement.x, c.placement.y, c.origin, c.dead,
           if c.oscillator.Some? then Some(c.oscillator.value.freq) else None, AgentOf(c))
  }

  ghost predicate Shows(l: S.Live, w: W.World) {
    && l.entities.Keys == w.nodes.Keys
    && (forall e | e in l.entities :: NodeOf(l.entities[e]) == w.nodes[e])
    && l.joints == w.joints && l.next == w.next && l.step == w.step && l.chunks == w.chunks
  }

  /** Marker and tuning are inserted and removed together. */
  ghost predicate Tuned(l: S.Live) {
    forall e | e in l.entities && l.entities[e].marker.Some? :: l.entities[e].tuning.Some?
  }

  // ---------------------------------------------------------------- the nodes of a snapshot

  /** The entities of the captured nodes, in their order. */
  ghost predicate Ranks(l: S.Live, ns: seq<S.CanonicalNode>, order: seq<Entity>) {
    && |order| == |ns| && MeetsAll(order, l.entities.Keys)
    && (forall i: nat {:trigger ns[i]} | i < |ns| :: order[i] in l.entities && S.Canonical(l, order[i]) == ns[i])
  }

  ghost function EntityOf(l: S.Live, n: S.CanonicalNode): Entity
    requires exists e :: e in l.entities && S.Canonical(l, e) == n
  {
    var e :| e in l.entities && S.Canonical(l, e) == n;
    e
  }

  lemma SameCanonical(l: S.Live, e: Entity, f: Entity)
    requires S.AllNamed(l) && S.Distinct(l) && e in l.entities && f in l.entities
    requires S.Canonical(l, e).stableId == S.Canonical(l, f).stableId
    ensures e == f
  {
    assert S.SameId(l, e, f);
  }

  lemma Ranking(l: S.Live, met: seq<Entity>, checkpoint: Option<string>) returns (order: seq<Entity>)
    requires S.AllNamed(l) && S.Distinct(l) && S.Enumerates(met, l)
    ensures Ranks(l, S.Capture(l, met, checkpoint).nodes, order)
  {
    var ns := S.Capture(l, met, checkpoint).nodes;
    S.CapturedInOrder(l, met, checkpoint);
    forall i: nat | i < |ns| ensures exists e :: e in l.entities && S.Canonical(l, e) == ns[i] {
      S.CapturedHas(l, met, checkpoint, ns[i]);
    }
    order := seq(|ns|, i requires 0 <= i < |ns| => EntityOf(l, ns[i]));
    forall i: nat, j: nat ensures !MeetsTwice(order, i, j) {
      if i < j < |ns| { assert ns[i].stableId < ns[j].stableId; }
    }
    forall e ensures Meets(order, e) <==> e in l.entities.Keys {
      if e in l.entities {
        S.CapturedHas(l, met, checkpoint, S.Canonical(l, e));
        var i: nat :| i < |ns| && ns[i] == S.Canonical(l, e);
        SameCanonical(l, order[i], e);
        assert order[i] == e;
      }
    }
  }

  /** A node is found under its identity where it is in the order. */
  lemma RankedPlace(l: S.Live, ns: seq<S.CanonicalNode>, order: seq<Entity>, e: Entity)
    requires S.AllNamed(l) && S.DistinctNodes(ns) && Ranks(l, ns, order) && e in l.entities
    ensures PlaceOf(order, e).Some? && S.IndexOf(ns, l.entities[e].stableId.value) == PlaceOf(order, e)
  {
    assert Meets(order, e);
    var i := PlaceOf(order, e).value;
    assert ns[i].stableId == l.entities[e].stableId.value;
    S.IndexOfOnly(ns, i);
  }

  lemma SameLink(l: S.Live, w: W.World, ns: seq<S.CanonicalNode>, order: seq<Entity>, i: nat)
    requires S.AllNamed(l) && Tuned(l) && Shows(l, w) && S.DistinctNodes(ns) && Ranks(l, ns, order) && i < |ns|
    ensures S.LinkAt(ns, i) == R.LinkAt(w, order, i)
  {
    S.DistinctLinks(ns, {}, i);
    var c := l.entities[order[i]];
    assert S.Canonical(l, order[i]) == ns[i] && NodeOf(c) == w.nodes[order[i]];
    if c.marker.Some? && c.clamp.Some? && c.clamp.value.target.Some? {
      var target := c.clamp.value.target.value;
      if target in l.entities { RankedPlace(l, ns, order, target); } else { assert !Meets(order, target); }
    }
  }

  lemma SameLinks(l: S.Live, w: W.World, ns: seq<S.CanonicalNode>, order: seq<Entity>)
    requires S.AllNamed(l) && Tuned(l) && Shows(l, w) && S.DistinctNodes(ns) && Ranks(l, ns, order)
    ensures S.LinksOf(ns) == R.LinksOf(w, order)
  {
    forall i | 0 <= i < |ns| ensures S.LinksOf(ns)[i] == R.LinksOf(w, order)[i] { SameLink(l, w, ns, order, i); }
  }

  // ---------------------------------------------------------------- restoring is the restore event

  /** The agents whose controllers are supplied under these identities. */
  function SuppliedAt(l: S.Live, ids: set<nat>): set<Entity> {
    set e | e in l.entities && S.OrElse(l.entities[e].stableId, 0) in ids
  }

  lemma InertShows(l: S.Live, w: W.World, e: Entity)
    requires Shows(l, w) && e in l.entities
    ensures NodeOf(S.Inert(S.Canonical(l, e))) == w.nodes[e].(stress := 0.0, agent := None)
  {
    assert NodeOf(l.entities[e]) == w.nodes[e];
  }

  lemma AnimatedShows(l: S.Live, w: W.World, e: Entity, controller: nat, clamp: W.Clamp)
    requires Shows(l, w) && e in l.entities && S.Canonical(l, e).agent.Some?
    ensures W.IsAgent(w, e)
    ensures NodeOf(S.Animated(S.Canonical(l, e), controller, clamp)) ==
            w.nodes[e].(stress := 0.0, agent := Some(w.nodes[e].agent.value.(clamp := clamp)))
  {
    InertShows(l, w, e);
    assert NodeOf(l.entities[e]) == w.nodes[e];
  }

  lemma NodeShows(l: S.Live, w: W.World, ns: seq<S.CanonicalNode>, order: seq<Entity>, ids: set<nat>, i: nat)
    requires S.AllNamed(l) && Tuned(l) && Shows(l, w) && S.DistinctNodes(ns) && Ranks(l, ns, order) && i < |ns|
    ensures order[i] in w.nodes
    ensures NodeOf(S.Joined(ns, ids, |ns|, i)) == R.Reborn(w, order, SuppliedAt(l, ids), i)
  {
    var e, n := order[i], ns[i];
    assert e in l.entities;
    assert S.Canonical(l, e) == n && NodeOf(l.entities[e]) == w.nodes[e];
    S.DistinctLinks(ns, ids, i);
    SameLinks(l, w, ns, order);
    if S.Supplied(ns, ids, i) {
      AnimatedShows(l, w, e, S.SuppliedBefore(ns, ids, i),
                    GripLeft(S.LinksOf(ns), |ns|, |ns|, i, ns[i].agent.value.clampCooldown));
    } else {
      InertShows(l, w, e);
    }
  }

  lemma SnapshotShows(l: S.Live, w: W.World, s: S.WorldSnapshot, order: seq<Entity>, ids: set<nat>)
    requires S.AllNamed(l) && Tuned(l) && Shows(l, w) && S.DistinctNodes(s.nodes) && Ranks(l, s.nodes, order)
    requires s.tick == l.step && (set c | c in s.activeChunks) == l.chunks
    ensures Shows(S.RestoredWorld(s, ids), R.Restored(w, order, SuppliedAt(l, ids)))
  {
    SameLinks(l, w, s.nodes, order);
    forall i: nat | i < |s.nodes|
      ensures order[i] in w.nodes
      ensures NodeOf(S.Joined(s.nodes, ids, |s.nodes|, i)) == R.Reborn(w, order, SuppliedAt(l, ids), i)
    {
      NodeShows(l, w, s.nodes, order, ids, i);
    }
  }

  /** The same but for the identity, which there is. */
  ghost predicate OnlyNamed(l: S.Live, z: S.Live) {
    && z.entities.Keys == l.entities.Keys
    && (forall e | e in l.entities ::
          z.entities[e].stableId.Some? && z.entities[e] == l.entities[e].(stableId := z.entities[e].stableId))
    && z.joints == l.joints && z.next == l.next && z.step == l.step && z.chunks == l.chunks
  }

  lemma NamingOnly(l: S.Live)
    ensures OnlyNamed(l, S.EnsureStableIds(l))
  {
    var z := S.EnsureStableIds(l);
    forall e | e in l.entities
      ensures z.entities[e].stableId.Some? && z.entities[e] == l.entities[e].(stableId := z.entities[e].stableId)
    {
      S.IdentifiedOnly(l, e);
    }
  }

  /** Naming the nodes shows nothing. */
  lemma NamingShows(l: S.Live, z: S.Live, w: W.World)
    requires Shows(l, w) && Tuned(l) && OnlyNamed(l, z)
    ensures Shows(z, w) && Tuned(z) && S.AllNamed(z)
  {
    forall e | e in z.entities ensures NodeOf(z.entities[e]) == w.nodes[e] {
      assert NodeOf(l.entities[e]) == w.nodes[e];
    }
  }

  lemma NamedResume(l: S.Live, w: W.World, met: seq<Entity>, checkpoint: Option<string>, ids: set<nat>)
    returns (order: seq<Entity>)
    requires Shows(l, w) && Tuned(l) && S.AllNamed(l) && S.Distinct(l) && S.Enumerates(met, l)
    ensures R.Enumerates(order, w)
    ensures Shows(S.RestoredWorld(S.Capture(l, met, checkpoint), ids), R.Restored(w, order, SuppliedAt(l, ids)))
  {
    var s := S.Capture(l, met, checkpoint);
    order := Ranking(l, met, checkpoint);
    S.CapturedInOrder(l, met, checkpoint);
    S.InOrderDistinct(s.nodes);
    forall c ensures c in s.activeChunks <==> c in l.chunks { Genesis.OrderedHas(l.chunks, c); }
    SnapshotShows(l, w, s, order, ids);
  }

  /**
   Saving and resuming. Whatever the live world shows the simulation, the world restored from
   its capture shows it after a restore event, with the nodes in the order of their
   identities and exactly the supplied controllers: a possible event, after which all
   invariants hold.
   */
  lemma ResumeIsRestore(l: S.Live, w: W.World, met: seq<Entity>, checkpoint: Option<string>, ids: set<nat>)
    returns (event: Simulation.Event)
    requires Simulation.WorldOk(w) && Shows(l, w) && Tuned(l)
    requires S.Placed(l) && S.Distinct(l) && S.Legal(l, S.Ensure) && S.Enumerates(met, l)
    ensures event.Restore? && event.supplied == SuppliedAt(S.EnsureStableIds(l), ids)
    ensures Simulation.Possible(w, event) && Simulation.WorldOk(Simulation.Advance(w, event))
    ensures var restored := S.Restore(S.Capture(l, met, checkpoint), ids);
            restored.Success? && Shows(restored.value, Simulation.Advance(w, event))
  {
    S.CaptureNames(l, met, checkpoint);
    S.FreshIdentities(l);
    NamingOnly(l);
    NamingShows(l, S.EnsureStableIds(l), w);
    var order := NamedResume(S.EnsureStableIds(l), w, met, checkpoint, ids);
    event := Simulation.Restore(order, SuppliedAt(S.EnsureStableIds(l), ids));
    Simulation.RestoreIntegrity(w, event.order, event.supplied);
  }
}
