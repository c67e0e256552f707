/**
What the two indexes of the peer table promise each other.

The theorems are about every sequence of frames that never moves a node key to
another node id. `owner` names the id each key belongs to.
*/
module NetMapIndex {
  import opened Common
  import opened NetMap

  /** Every key a node list names belongs to the node that names it. */
  ghost predicate NodesOwned(nodes: seq<NodeWire>, owner: NodeKey -> int) {
    forall n | n in nodes && n.key.Some? :: owner(n.key.value) == n.id
  }

  ghost predicate PatchesOwned(patches: seq<PeerChange>, owner: NodeKey -> int) {
    forall p | p in patches && p.key.Some? :: owner(p.key.value) == p.nodeId
  }

  /** The frame keeps every key with the id that owns it. */
  ghost predicate FrameOwned(f: MapResponse, owner: NodeKey -> int) {
    && NodesOwned(ListOf(f.peers), owner)
    && NodesOwned(ListOf(f.peersChanged), owner)
    && PatchesOwned(ListOf(f.peersChangedPatch), owner)
  }

  /** Every indexed id leads to a peer that is present and carries that id. */
  ghost predicate IndexSound(t: Table) {
    forall id | id in t.ids :: t.ids[id] in t.peers && t.peers[t.ids[id]].nodeId == id
  }

  /** Every stored peer sits under its own key, which belongs to its id. */
  ghost predicate PeersOwned(t: Table, owner: NodeKey -> int) {
    forall k | k in t.peers :: t.peers[k].nodeKey == k && owner(k) == t.peers[k].nodeId
  }

  ghost predicate Good(t: Table, owner: NodeKey -> int) {
    IndexSound(t) && PeersOwned(t, owner)
  }

  // ---------- one phase at a time ----------

  lemma {:induction false} UpsertAllGood(w: Work, nodes: seq<NodeWire>, owner: NodeKey -> int)
    requires Good(w.table, owner) && NodesOwned(nodes, owner)
    ensures Good(UpsertAll(w, nodes).table, owner)
  {
    if nodes != [] {
      UpsertAllGood(w, Init(nodes), owner);
      assert Last(nodes) in nodes;
    }
  }

  lemma RemoveIdGood(w: Work, id: int, owner: NodeKey -> int)
    requires Good(w.table, owner)
    ensures Good(RemoveId(w, id).table, owner)
  {
  }

  lemma {:induction false} RemoveIdsGood(w: Work, ids: seq<int>, owner: NodeKey -> int)
    requires Good(w.table, owner)
    ensures Good(RemoveIds(w, ids).table, owner)
  {
    if ids != [] {
      RemoveIdsGood(w, Init(ids), owner);
      RemoveIdGood(RemoveIds(w, Init(ids)), Last(ids), owner);
    }
  }

  /** A patch keeps the table good, and is skipped only for an id the table does not know. */
  lemma PatchGood(w: Work, p: PeerChange, owner: NodeKey -> int)
    requires Good(w.table, owner)
    requires p.key.Some? ==> owner(p.key.value) == p.nodeId
    ensures Good(Patch(w, p).table, owner)
    ensures Patch(w, p).delta.patchesSkipped ==
            w.delta.patchesSkipped + if p.nodeId in w.table.ids then 0 else 1
    ensures Patch(w, p).delta.patchesApplied ==
            w.delta.patchesApplied + if p.nodeId in w.table.ids then 1 else 0
    ensures Patch(w, p).table.ids.Keys == w.table.ids.Keys
  {
  }

  lemma {:induction false} PatchAllGood(w: Work, patches: seq<PeerChange>, owner: NodeKey -> int)
    requires Good(w.table, owner) && PatchesOwned(patches, owner)
    ensures Good(PatchAll(w, patches).table, owner)
    ensures PatchAll(w, patches).table.ids.Keys == w.table.ids.Keys
    ensures PatchAll(w, patches).delta.patchesSkipped ==
            w.delta.patchesSkipped + UnknownIds(patches, w.table.ids.Keys)
    ensures PatchAll(w, patches).delta.patchesApplied ==
            w.delta.patchesApplied + |patches| - UnknownIds(patches, w.table.ids.Keys)
  {
    if patches != [] {
      PatchAllGood(w, Init(patches), owner);
      assert Last(patches) in patches;
      PatchGood(PatchAll(w, Init(patches)), Last(patches), owner);
    }
  }

  /** How many patches name an id outside `known`. */
  ghost function UnknownIds(patches: seq<PeerChange>, known: set<int>): nat {
    if patches == [] then 0
    else UnknownIds(Init(patches), known) + if Last(patches).nodeId in known then 0 else 1
  }

  lemma {:induction false} DropAbsentPeers(w: Work, order: seq<NodeKey>, kept: set<NodeKey>)
    ensures DropAbsent(w, order, kept).table.ids == w.table.ids
    ensures DropAbsent(w, order, kept).table.peers ==
            w.table.peers - ((set k | k in order) - kept)
    ensures forall k :: k in DropAbsent(w, order, kept).delta.removed <==>
                        k in w.delta.removed || (k in order && k !in kept)
    ensures DropAbsent(w, order, kept).delta ==
            w.delta.(removed := DropAbsent(w, order, kept).delta.removed)
  {
    if order != [] {
      DropAbsentPeers(w, Init(order), kept);
      assert forall k :: k in order <==> k in Init(order) || k == Last(order);
    }
  }

  /** The index is sound and within the owners' ids; entries at the keys in `pending` may be anything. */
  ghost predicate GoodBut(t: Table, owner: NodeKey -> int, pending: set<NodeKey>) {
    && (forall id | id in t.ids :: t.ids[id] in t.peers && t.ids[id] !in pending && owner(t.ids[id]) == id)
    && (forall k | k in t.peers && k !in pending :: t.peers[k].nodeKey == k && owner(k) == t.peers[k].nodeId)
  }

  /** Upserting a list sets right every entry whose key it names. */
  lemma {:induction false} UpsertAllSettles(w: Work, nodes: seq<NodeWire>, owner: NodeKey -> int, pending: set<NodeKey>)
    requires GoodBut(w.table, owner, pending) && NodesOwned(nodes, owner)
    ensures GoodBut(UpsertAll(w, nodes).table, owner, pending - KeysOf(nodes))
  {
    if nodes != [] {
      UpsertAllSettles(w, Init(nodes), owner, pending);
      assert nodes == Init(nodes) + [Last(nodes)];
      assert KeysOf(nodes) == KeysOf(Init(nodes)) + KeysOf([Last(nodes)]);
    }
  }

  /** A full set leaves a good table, whatever was there before. */
  lemma ReplaceAllGood(w: Work, nodes: seq<NodeWire>, order: seq<NodeKey>, owner: NodeKey -> int)
    requires NodesOwned(nodes, owner)
    requires Good(w.table, owner) || Enumerates(order, w.table.peers.Keys)
    ensures Good(ReplaceAll(w, nodes, order).table, owner)
  {
    DropAbsentPeers(w, order, KeysOf(nodes));
    var dropped := DropAbsent(w, order, KeysOf(nodes));
    var cleared := dropped.(table := dropped.table.(ids := map[]));
    if Good(w.table, owner) {
      UpsertAllGood(cleared, nodes, owner);
    } else {
      UpsertAllSettles(cleared, nodes, owner, KeysOf(nodes));
    }
  }

  /** One frame keeps the indexes in step, and skips exactly the patches that name an unknown id. */
  lemma ApplyFrameGood(t: Table, f: MapResponse, order: seq<NodeKey>, owner: NodeKey -> int)
    requires Good(t, owner) && FrameOwned(f, owner)
    ensures Good(ApplyFrame(t, f, order).table, owner)
    ensures ApplyFrame(t, f, order).delta.patchesSkipped ==
            AfterRemovals(t, f, order).delta.patchesSkipped
            + UnknownIds(ListOf(f.peersChangedPatch), AfterRemovals(t, f, order).table.ids.Keys)
  {
    var w := Work(t, EMPTY_DELTA);
    if f.peers.Some? {
      ReplaceAllGood(w, f.peers.value, order, owner);
    }
    var v := if f.peers.Some? then ReplaceAll(w, f.peers.value, order) else w;
    UpsertAllGood(v, ListOf(f.peersChanged), owner);
    RemoveIdsGood(AfterUpserts(t, f, order), ListOf(f.peersRemoved), owner);
    PatchAllGood(AfterRemovals(t, f, order), ListOf(f.peersChangedPatch), owner);
  }

  // ---------- every sequence of frames ----------

  /** A frame together with the order in which it visits the old keys. */
  datatype Received = Received(frame: MapResponse, order: seq<NodeKey>)

  function ApplyAll(t: Table, frames: seq<Received>): Table {
    if frames == [] then t
    else ApplyFrame(ApplyAll(t, Init(frames)), Last(frames).frame, Last(frames).order).table
  }

  /** Whatever frames arrive, the index of a session stays sound. */
  lemma {:induction false} EveryRunKeepsIndex(frames: seq<Received>, owner: NodeKey -> int)
    requires forall r | r in frames :: FrameOwned(r.frame, owner)
    ensures Good(ApplyAll(EMPTY_TABLE, frames), owner)
  {
    if frames != [] {
      assert forall r | r in Init(frames) :: r in frames;
      EveryRunKeepsIndex(Init(frames), owner);
      assert Last(frames) in frames;
      ApplyFrameGood(ApplyAll(EMPTY_TABLE, Init(frames)), Last(frames).frame, Last(frames).order, owner);
    }
  }

  /** A sound index gives two ids two peers. */
  lemma IndexInjective(t: Table, a: int, b: int)
    requires IndexSound(t) && a in t.ids && b in t.ids && a != b
    ensures t.ids[a] != t.ids[b]
  {
    assert t.peers[t.ids[a]].nodeId == a;
  }

  /** With a sound index a removal takes its own peer away and leaves every other node reachable. */
  lemma RemovalDropsOnlyItsPeer(w: Work, id: int)
    requires IndexSound(w.table) && id in w.table.ids
    ensures var t := RemoveId(w, id).table;
            && id !in t.ids
            && (forall k :: k in t.peers <==> k in w.table.peers && w.table.ids[id] != k)
            && (forall other | other in w.table.ids && other != id ::
                  && other in t.ids
                  && t.ids[other] in t.peers
                  && t.peers[t.ids[other]] == w.table.peers[w.table.ids[other]])
  {
    forall other | other in w.table.ids && other != id
      ensures w.table.ids[other] != w.table.ids[id]
    {
      IndexInjective(w.table, other, id);
    }
  }

  /**
  The hypothesis on keys is needed: an upsert leaves a sound index sound exactly
  when no other id leads to the key it brings.
  */
  lemma UpsertKeepsIndexIff(w: Work, n: NodeWire)
    requires IndexSound(w.table) && n.key.Some?
    ensures IndexSound(Upsert(w, n).table) <==>
            forall id | id in w.table.ids && id != n.id :: w.table.ids[id] != n.key.value
  {
    var t := Upsert(w, n).table;
    forall id | id in w.table.ids && id != n.id && w.table.ids[id] == n.key.value
      ensures !IndexSound(t)
    {
      assert id in t.ids && t.peers[t.ids[id]].nodeId == n.id;
    }
  }

  /** So does a patch that brings a key: it leaves a sound index sound exactly when no other id leads to that key. */
  lemma PatchKeepsIndexIff(w: Work, p: PeerChange)
    requires IndexSound(w.table) && p.nodeId in w.table.ids && p.key.Some?
    ensures IndexSound(Patch(w, p).table) <==>
            forall id | id in w.table.ids && id != p.nodeId :: w.table.ids[id] != p.key.value
  {
    var t := Patch(w, p).table;
    forall id | id in w.table.ids && id != p.nodeId && w.table.ids[id] == p.key.value
      ensures !IndexSound(t)
    {
      IndexInjective(w.table, id, p.nodeId);
      assert id in t.ids && t.peers[t.ids[id]].nodeId == p.nodeId;
    }
  }

  /** The key a patched peer ends up under. */
  function KeyAfterPatch(t: Table, p: PeerChange): NodeKey
    requires p.nodeId in t.ids
  {
    if p.key.Some? then p.key.value else t.ids[p.nodeId]
  }

  /**
  A patch changes one entry. The peer its id leads to ends up under the patch's
  key with the same id; what the patch leaves out keeps its value, what it
  names gets the patch's; every other entry and every other id is untouched.
  */
  lemma PatchMovesOneEntry(w: Work, p: PeerChange)
    requires IndexSound(w.table) && p.nodeId in w.table.ids
    ensures var t := Patch(w, p).table;
            var was, key := w.table.ids[p.nodeId], KeyAfterPatch(w.table, p);
            && t.peers.Keys == w.table.peers.Keys - {was} + {key}
            && t.ids == w.table.ids[p.nodeId := key]
            && (forall k | k in t.peers && k != key :: t.peers[k] == w.table.peers[k])
            && t.peers[key].nodeId == p.nodeId
            && t.peers[key].name == w.table.peers[was].name && t.peers[key].allowedIps == w.table.peers[was].allowedIps
            && (p.online.Some? ==> t.peers[key].online == p.online.value)
            && (p.online.None? ==> t.peers[key].online == w.table.peers[was].online)
            && (p.endpoints.Some? ==> t.peers[key].endpoints == p.endpoints.value)
            && (p.endpoints.None? ==> t.peers[key].endpoints == w.table.peers[was].endpoints)
            && (p.homeDerp.Some? ==> t.peers[key].homeDerp == p.homeDerp.value)
            && (p.homeDerp.None? && p.derpRegionLegacy.Some? ==> t.peers[key].homeDerp == p.derpRegionLegacy.value)
            && (p.homeDerp.None? && p.derpRegionLegacy.None? ==> t.peers[key].homeDerp == w.table.peers[was].homeDerp)
            && (p.discoKey.Some? ==> t.peers[key].discoKey == p.discoKey)
            && (p.discoKey.None? ==> t.peers[key].discoKey == w.table.peers[was].discoKey)
            && (p.lastSeen.Some? ==> t.peers[key].lastSeen == p.lastSeen)
            && (p.lastSeen.None? ==> t.peers[key].lastSeen == w.table.peers[was].lastSeen)
            && (p.keyExpiry.Some? ==> t.peers[key].keyExpiry == p.keyExpiry)
            && (p.keyExpiry.None? ==> t.peers[key].keyExpiry == w.table.peers[was].keyExpiry)
  {
  }

  lemma FieldsTwice(peer: PeerSnapshot, p: PeerChange)
    ensures PatchFields(PatchFields(peer, p), p) == PatchFields(peer, p)
  {
  }

  lemma SameUpdate(m: map<NodeKey, PeerSnapshot>, k: NodeKey)
    requires k in m
    ensures m[k := m[k]] == m
  {
  }

  /** A patch that arrives twice changes the table once. */
  lemma PatchTwice(w: Work, p: PeerChange)
    requires IndexSound(w.table)
    ensures Patch(Patch(w, p), p).table == Patch(w, p).table
  {
    if p.nodeId in w.table.ids {
      var was, key := w.table.ids[p.nodeId], KeyAfterPatch(w.table, p);
      var once := Patch(w, p).table;
      var peer := w.table.peers[was].(nodeKey := if key == was then w.table.peers[was].nodeKey else key);
      FieldsTwice(peer, p);
      assert once.ids[p.nodeId] == key && once.peers[key] == PatchFields(peer, p);
      SameUpdate(once.peers, key);
    }
  }

  // ---------- the converse does not hold by itself ----------

  /** Every stored peer can be found through the id it carries. */
  ghost predicate Reachable(t: Table) {
    forall k | k in t.peers :: t.peers[k].nodeId in t.ids && t.ids[t.peers[k].nodeId] == k
  }

  /**
  Upserting a node keeps every peer reachable exactly when the node's id is new,
  or already leads to the same key. Otherwise the peer under the earlier key is
  stranded: it stays in the table and no removal or patch can name it any more.
  */
  lemma UpsertKeepsReachableIff(w: Work, n: NodeWire, owner: NodeKey -> int)
    requires Good(w.table, owner) && Reachable(w.table)
    requires n.key.Some? && owner(n.key.value) == n.id
    ensures Reachable(Upsert(w, n).table) <==>
            n.id !in w.table.ids || w.table.ids[n.id] == n.key.value
  {
    var t := Upsert(w, n).table;
    if n.id in w.table.ids && w.table.ids[n.id] != n.key.value {
      var stranded := w.table.ids[n.id];
      assert stranded in t.peers && t.peers[stranded].nodeId == n.id;
      assert t.ids[n.id] != stranded;
    }
  }
}
