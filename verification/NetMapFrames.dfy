/**
What one whole frame does to the peer table, list by list.

Each theorem speaks of a frame and the table before it, and of one node or key:
what the frame removes, what it leaves alone, what it brings and what it
patches. `owner` names the id each key belongs to.
*/
module NetMapFrames {
  import opened Common
  import opened NetMap
  import opened NetMapIndex

  // ---------- each phase in closed form ----------

  /** The keys that some ids lead to. */
  ghost function Led(t: Table, ids: seq<int>): set<NodeKey> {
    set id | id in ids && id in t.ids :: t.ids[id]
  }

  /** Removals take away exactly the ids named and the keys these led to, and report exactly those keys. */
  lemma {:induction false} RemovalsExact(w: Work, ids: seq<int>)
    ensures var v := RemoveIds(w, ids);
            && v.table.ids == w.table.ids - (set id | id in ids)
            && v.table.peers == w.table.peers - Led(w.table, ids)
            && (forall k :: k in v.delta.removed <==> k in w.delta.removed || k in Led(w.table, ids))
            && v.delta == w.delta.(removed := v.delta.removed)
  {
    if ids == [] {
      assert Led(w.table, ids) == {};
    } else {
      var pre, id := Init(ids), Last(ids);
      RemovalsExact(w, pre);
      assert forall x :: x in ids <==> x in pre || x == id;
      assert Led(w.table, ids) == Led(w.table, pre) + if id in w.table.ids then {w.table.ids[id]} else {};
    }
  }

  /** No usable node of a list has this id. */
  ghost predicate NoNodeHas(nodes: seq<NodeWire>, id: int) {
    forall n | n in nodes && n.key.Some? :: n.id != id
  }

  /** Two tables hold the same at one key. */
  ghost predicate SameAt(a: Table, b: Table, k: NodeKey) {
    (k in a.peers <==> k in b.peers) && (k in a.peers ==> a.peers[k] == b.peers[k])
  }

  ghost predicate SameId(a: Table, b: Table, id: int) {
    (id in a.ids <==> id in b.ids) && (id in a.ids ==> a.ids[id] == b.ids[id])
  }

  lemma {:induction false} UpsertsElsewhere(w: Work, nodes: seq<NodeWire>, k: NodeKey, id: int)
    ensures k !in KeysOf(nodes) ==> SameAt(w.table, UpsertAll(w, nodes).table, k)
    ensures NoNodeHas(nodes, id) ==> SameId(w.table, UpsertAll(w, nodes).table, id)
    ensures UpsertAll(w, nodes).delta == w.delta.(upserted := UpsertAll(w, nodes).delta.upserted)
    ensures w.delta.upserted <= UpsertAll(w, nodes).delta.upserted
  {
    if nodes != [] {
      assert nodes == Init(nodes) + [Last(nodes)];
      assert KeysOf(nodes) == KeysOf(Init(nodes)) + KeysOf([Last(nodes)]);
      assert Last(nodes) in nodes && forall n | n in Init(nodes) :: n in nodes;
      UpsertsElsewhere(w, Init(nodes), k, id);
    }
  }

  /** Node `j` of a list is the last with its key, and with its id. */
  ghost predicate LastOfKey(nodes: seq<NodeWire>, j: nat) {
    j < |nodes| && nodes[j].key.Some? && forall i | j < i < |nodes| :: nodes[i].key != nodes[j].key
  }

  ghost predicate LastOfId(nodes: seq<NodeWire>, j: nat) {
    j < |nodes| && nodes[j].key.Some? && forall i | j < i < |nodes| && nodes[i].key.Some? :: nodes[i].id != nodes[j].id
  }

  /** A list of nodes leaves each of its keys with what the last node of that key says. */
  lemma {:induction false} UpsertsLand(w: Work, nodes: seq<NodeWire>, j: nat)
    requires j < |nodes| && nodes[j].key.Some?
    ensures var t, k := UpsertAll(w, nodes).table, nodes[j].key.value;
            && k in t.peers
            && (LastOfKey(nodes, j) ==> Some(t.peers[k]) == NodeToSnapshot(nodes[j]))
            && nodes[j].id in t.ids
            && (LastOfId(nodes, j) ==> t.ids[nodes[j].id] == k)
    ensures NodeToSnapshot(nodes[j]).value in UpsertAll(w, nodes).delta.upserted
  {
    if j < |nodes| - 1 {
      var pre := Init(nodes);
      assert forall i | 0 <= i < |pre| :: pre[i] == nodes[i];
      UpsertsLand(w, pre, j);
      assert LastOfKey(nodes, j) ==> LastOfKey(pre, j) && nodes[|nodes| - 1].key != nodes[j].key;
      assert LastOfId(nodes, j) && nodes[|nodes| - 1].key.Some? ==> nodes[|nodes| - 1].id != nodes[j].id;
      assert LastOfId(nodes, j) ==> LastOfId(pre, j);
    }
  }

  /** No patch of a list changes the node that owns the key: none names its id, or the table does not know it. */
  ghost predicate NotPatched(t: Table, patches: seq<PeerChange>, id: int) {
    id !in t.ids || forall p | p in patches :: p.nodeId != id
  }

  lemma PatchElsewhere(w: Work, p: PeerChange, owner: NodeKey -> int, k: NodeKey, id: int)
    requires Good(w.table, owner) && (p.key.Some? ==> owner(p.key.value) == p.nodeId)
    ensures p.nodeId !in w.table.ids || p.nodeId != owner(k) ==> SameAt(w.table, Patch(w, p).table, k)
    ensures p.nodeId !in w.table.ids || p.nodeId != id ==> SameId(w.table, Patch(w, p).table, id)
    ensures Patch(w, p).delta.removed == w.delta.removed
  {
  }

  lemma {:induction false} PatchesElsewhere(w: Work, patches: seq<PeerChange>, owner: NodeKey -> int,
                                            k: NodeKey, id: int)
    requires Good(w.table, owner) && PatchesOwned(patches, owner)
    ensures NotPatched(w.table, patches, owner(k)) ==> SameAt(w.table, PatchAll(w, patches).table, k)
    ensures NotPatched(w.table, patches, id) ==> SameId(w.table, PatchAll(w, patches).table, id)
    ensures PatchAll(w, patches).delta.removed == w.delta.removed
  {
    if patches != [] {
      var pre, p := Init(patches), Last(patches);
      assert p in patches && forall x | x in pre :: x in patches;
      PatchesElsewhere(w, pre, owner, k, id);
      PatchAllGood(w, pre, owner);
      PatchElsewhere(PatchAll(w, pre), p, owner, k, id);
    }
  }

  // ---------- the phases of one frame ----------

  lemma PhasesGood(t: Table, f: MapResponse, order: seq<NodeKey>, owner: NodeKey -> int)
    requires Good(t, owner) && FrameOwned(f, owner)
    ensures Good(AfterUpserts(t, f, order).table, owner) && Good(AfterRemovals(t, f, order).table, owner)
  {
    var w := Work(t, EMPTY_DELTA);
    if f.peers.Some? {
      ReplaceAllGood(w, f.peers.value, order, owner);
    }
    UpsertAllGood(if f.peers.Some? then ReplaceAll(w, f.peers.value, order) else w, ListOf(f.peersChanged), owner);
    RemoveIdsGood(AfterUpserts(t, f, order), ListOf(f.peersRemoved), owner);
  }

  /** The last two phases leave a key and an id alone that they do not name. */
  lemma TailElsewhere(t: Table, f: MapResponse, order: seq<NodeKey>, owner: NodeKey -> int, k: NodeKey, id: int)
    requires Good(t, owner) && FrameOwned(f, owner)
    ensures var u, v := AfterUpserts(t, f, order), ApplyFrame(t, f, order);
            && (owner(k) !in ListOf(f.peersRemoved) && NotPatched(u.table, ListOf(f.peersChangedPatch), owner(k)) ==>
                  SameAt(u.table, v.table, k))
            && (id !in ListOf(f.peersRemoved) && NotPatched(u.table, ListOf(f.peersChangedPatch), id) ==>
                  SameId(u.table, v.table, id))
  {
    var u := AfterUpserts(t, f, order);
    PhasesGood(t, f, order, owner);
    RemovalsExact(u, ListOf(f.peersRemoved));
    assert k in Led(u.table, ListOf(f.peersRemoved)) ==> owner(k) in ListOf(f.peersRemoved);
    PatchesElsewhere(AfterRemovals(t, f, order), ListOf(f.peersChangedPatch), owner, k, id);
  }

  // ---------- what a frame does ----------

  /**
  Every id a frame removes is gone after it, and so is the key it led to, which
  is reported as removed. No patch of the same frame brings them back.
  */
  lemma FrameRemoves(t: Table, f: MapResponse, order: seq<NodeKey>, owner: NodeKey -> int, id: int)
    requires Good(t, owner) && FrameOwned(f, owner) && id in ListOf(f.peersRemoved)
    ensures var u, v := AfterUpserts(t, f, order).table, ApplyFrame(t, f, order);
            && id !in v.table.ids
            && (id in u.ids ==> u.ids[id] !in v.table.peers && u.ids[id] in v.delta.removed)
    ensures var v := ApplyFrame(t, f, order);
            f.peers.None? && NoNodeHas(ListOf(f.peersChanged), id) && id in t.ids ==>
              t.ids[id] !in v.table.peers && t.ids[id] in v.delta.removed
  {
    var u, a := AfterUpserts(t, f, order), AfterRemovals(t, f, order);
    PhasesGood(t, f, order, owner);
    RemovalsExact(u, ListOf(f.peersRemoved));
    var k := if id in u.table.ids then u.table.ids[id] else NodeKey(0);
    PatchesElsewhere(a, ListOf(f.peersChangedPatch), owner, k, id);
    if id in u.table.ids {
      assert k in Led(u.table, ListOf(f.peersRemoved)) && owner(k) == id;
    }
    if f.peers.None? {
      UpsertsElsewhere(Work(t, EMPTY_DELTA), ListOf(f.peersChanged), k, id);
    }
  }

  /** A peer that no list of a frame names keeps its entry, and its id keeps leading to it. */
  lemma FrameKeeps(t: Table, f: MapResponse, order: seq<NodeKey>, owner: NodeKey -> int, k: NodeKey)
    requires Good(t, owner) && FrameOwned(f, owner) && f.peers.None? && k in t.peers
    requires k !in KeysOf(ListOf(f.peersChanged)) && owner(k) !in ListOf(f.peersRemoved)
    requires forall p | p in ListOf(f.peersChangedPatch) :: p.nodeId != owner(k)
    ensures var v := ApplyFrame(t, f, order).table;
            && k in v.peers && v.peers[k] == t.peers[k]
            && (NoNodeHas(ListOf(f.peersChanged), owner(k)) ==> SameId(t, v, owner(k)))
  {
    UpsertsElsewhere(Work(t, EMPTY_DELTA), ListOf(f.peersChanged), k, owner(k));
    TailElsewhere(t, f, order, owner, k, owner(k));
  }

  /**
  A changed node is in the table after the frame just as the frame describes it, unless the
  frame goes on about it.
  */
  lemma FrameBrings(t: Table, f: MapResponse, order: seq<NodeKey>, owner: NodeKey -> int, j: nat)
    requires Good(t, owner) && FrameOwned(f, owner) && LastOfKey(ListOf(f.peersChanged), j)
    requires var n := ListOf(f.peersChanged)[j];
             n.id !in ListOf(f.peersRemoved) && forall p | p in ListOf(f.peersChangedPatch) :: p.nodeId != n.id
    ensures var n, v := ListOf(f.peersChanged)[j], ApplyFrame(t, f, order).table;
            && n.key.value in v.peers && Some(v.peers[n.key.value]) == NodeToSnapshot(n)
            && (LastOfId(ListOf(f.peersChanged), j) ==> n.id in v.ids && v.ids[n.id] == n.key.value)
  {
    var w, nodes := Work(t, EMPTY_DELTA), ListOf(f.peersChanged);
    UpsertsLand(if f.peers.Some? then ReplaceAll(w, f.peers.value, order) else w, nodes, j);
    assert nodes[j] in nodes;
    TailElsewhere(t, f, order, owner, nodes[j].key.value, nodes[j].id);
  }

  /** The same holds of a node of the full set that the changed nodes do not name again. */
  lemma FrameReplaces(t: Table, f: MapResponse, order: seq<NodeKey>, owner: NodeKey -> int, j: nat)
    requires Good(t, owner) && FrameOwned(f, owner) && f.peers.Some? && LastOfKey(f.peers.value, j)
    requires var n := f.peers.value[j];
             && n.id !in ListOf(f.peersRemoved) && n.key.value !in KeysOf(ListOf(f.peersChanged))
             && forall p | p in ListOf(f.peersChangedPatch) :: p.nodeId != n.id
    ensures var n, v := f.peers.value[j], ApplyFrame(t, f, order).table;
            n.key.value in v.peers && Some(v.peers[n.key.value]) == NodeToSnapshot(n)
  {
    var w, nodes := Work(t, EMPTY_DELTA), f.peers.value;
    var dropped := DropAbsent(w, order, KeysOf(nodes));
    UpsertsLand(dropped.(table := dropped.table.(ids := map[])), nodes, j);
    var k := nodes[j].key.value;
    UpsertsElsewhere(ReplaceAll(w, nodes, order), ListOf(f.peersChanged), k, nodes[j].id);
    assert nodes[j] in nodes;
    TailElsewhere(t, f, order, owner, k, nodes[j].id);
  }

  /** A key that a full set and the changed nodes leave out is gone, unless a patch moves a node to it. */
  lemma FrameDrops(t: Table, f: MapResponse, order: seq<NodeKey>, owner: NodeKey -> int, k: NodeKey)
    requires Good(t, owner) && FrameOwned(f, owner) && Enumerates(order, t.peers.Keys) && f.peers.Some?
    requires k !in KeysOf(f.peers.value) && k !in KeysOf(ListOf(f.peersChanged))
    requires forall p | p in ListOf(f.peersChangedPatch) :: p.nodeId != owner(k)
    ensures k !in ApplyFrame(t, f, order).table.peers
  {
    var w, nodes := Work(t, EMPTY_DELTA), f.peers.value;
    DropAbsentPeers(w, order, KeysOf(nodes));
    var dropped := DropAbsent(w, order, KeysOf(nodes));
    UpsertsElsewhere(dropped.(table := dropped.table.(ids := map[])), nodes, k, owner(k));
    UpsertsElsewhere(ReplaceAll(w, nodes, order), ListOf(f.peersChanged), k, owner(k));
    var u, a := AfterUpserts(t, f, order), AfterRemovals(t, f, order);
    PhasesGood(t, f, order, owner);
    RemovalsExact(u, ListOf(f.peersRemoved));
    PatchesElsewhere(a, ListOf(f.peersChangedPatch), owner, k, owner(k));
  }

  /** The only patch of a frame for a known node does to it what that patch alone would do. */
  lemma FramePatches(t: Table, f: MapResponse, order: seq<NodeKey>, owner: NodeKey -> int, j: nat)
    requires Good(t, owner) && FrameOwned(f, owner) && f.peers.None? && j < |ListOf(f.peersChangedPatch)|
    requires var patches := ListOf(f.peersChangedPatch);
             var id := patches[j].nodeId;
             && id in t.ids && id !in ListOf(f.peersRemoved) && NoNodeHas(ListOf(f.peersChanged), id)
             && t.ids[id] !in KeysOf(ListOf(f.peersChanged))
             && forall i | 0 <= i < |patches| && i != j :: patches[i].nodeId != id
    ensures var p, v := ListOf(f.peersChangedPatch)[j], ApplyFrame(t, f, order).table;
            var key, alone := KeyAfterPatch(t, p), Patch(Work(t, EMPTY_DELTA), p).table;
            && key in v.peers && key in alone.peers && v.peers[key] == alone.peers[key]
            && p.nodeId in v.ids && v.ids[p.nodeId] == key
            && (key != t.ids[p.nodeId] ==> t.ids[p.nodeId] !in v.peers)
  {
    var patches, id := ListOf(f.peersChangedPatch), ListOf(f.peersChangedPatch)[j].nodeId;
    var was, a := t.ids[id], AfterRemovals(t, f, order);
    PhasesGood(t, f, order, owner);
    UpsertsElsewhere(Work(t, EMPTY_DELTA), ListOf(f.peersChanged), was, id);
    RemovalsExact(AfterUpserts(t, f, order), ListOf(f.peersRemoved));
    assert was !in Led(AfterUpserts(t, f, order).table, ListOf(f.peersRemoved));
    OnlyPatch(a, patches, owner, j);
  }

  /** A patch among others for other nodes. */
  lemma {:induction false} OnlyPatch(w: Work, patches: seq<PeerChange>, owner: NodeKey -> int, j: nat)
    requires Good(w.table, owner) && PatchesOwned(patches, owner) && j < |patches| && patches[j].nodeId in w.table.ids
    requires forall i | 0 <= i < |patches| && i != j :: patches[i].nodeId != patches[j].nodeId
    ensures var p, v := patches[j], PatchAll(w, patches).table;
            var was, key := w.table.ids[p.nodeId], KeyAfterPatch(w.table, p);
            && key in v.peers && key in Patch(w, p).table.peers && v.peers[key] == Patch(w, p).table.peers[key]
            && p.nodeId in v.ids && v.ids[p.nodeId] == key
            && (key != was ==> was !in v.peers)
  {
    var pre, p, q := Init(patches), patches[j], Last(patches);
    var was, key := w.table.ids[p.nodeId], KeyAfterPatch(w.table, p);
    assert p in patches && q in patches && forall x | x in pre :: x in patches;
    PatchAllGood(w, pre, owner);
    if j == |patches| - 1 {
      assert forall x | x in pre :: x.nodeId != p.nodeId;
      PatchesElsewhere(w, pre, owner, was, p.nodeId);
    } else {
      assert forall i | 0 <= i < |pre| :: pre[i] == patches[i];
      OnlyPatch(w, pre, owner, j);
      assert q == patches[|patches| - 1] && q.nodeId != p.nodeId;
      assert pre[j] == p;
      PatchElsewhere(PatchAll(w, pre), q, owner, key, p.nodeId);
      PatchElsewhere(PatchAll(w, pre), q, owner, was, p.nodeId);
    }
  }

  // ---------- one node ----------

  /**
  What the table keeps of a node: its own addresses stand in for missing allowed
  addresses, the legacy region for a missing home, and offline for no word.
  */
  lemma SnapshotOf(n: NodeWire)
    ensures NodeToSnapshot(n).None? <==> n.key.None?
    ensures n.key.Some? ==>
              var p := NodeToSnapshot(n).value;
              && p.nodeId == n.id && p.nodeKey == n.key.value && p.discoKey == n.discoKey && p.name == n.name
              && p.endpoints == n.endpoints && p.lastSeen == n.lastSeen && p.keyExpiry == n.keyExpiry
              && (n.allowedIps != [] ==> p.allowedIps == n.allowedIps)
              && (n.allowedIps == [] ==> p.allowedIps == n.addresses)
              && (n.homeDerp != 0 ==> p.homeDerp == n.homeDerp)
              && (n.homeDerp == 0 && n.derpLegacy.Some? ==> p.homeDerp == n.derpLegacy.value)
              && (n.homeDerp == 0 && n.derpLegacy.None? ==> p.homeDerp == 0)
              && (p.online <==> n.online == Some(true))
  {
  }
}
