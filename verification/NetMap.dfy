/**
The peer table of a control-plane session and the way one `MapResponse` frame
changes it.

A frame is merged in four phases: the full set (`Peers`), the upserts
(`PeersChanged`), the removals (`PeersRemoved`) and the sparse patches
(`PeersChangedPatch`). Every change is also recorded in a delta, which other
parts of the client replay. The functions of this module give the meaning of
each phase; class `NetMap` holds the table that the phases update in place.

Keys are symbolic. Text that arrives on the wire is represented by what it
parses to: `None` stands for text that does not parse.
*/
module NetMap {
  import opened Common

  datatype NodeKey = NodeKey(id: nat)

  datatype AllowedIp = AllowedIp(addr: nat, prefix: nat)

  datatype PeerSnapshot = PeerSnapshot(
    nodeId: int,
    nodeKey: NodeKey,
    discoKey: Option<NodeKey>,
    name: string,
    allowedIps: seq<AllowedIp>,
    homeDerp: nat,
    online: bool,
    endpoints: seq<string>,
    lastSeen: Option<string>,
    keyExpiry: Option<string>)

  datatype NodeWire = NodeWire(
    id: int,
    key: Option<NodeKey>,
    discoKey: Option<NodeKey>,
    name: string,
    addresses: seq<AllowedIp>,
    allowedIps: seq<AllowedIp>,
    homeDerp: nat,
    derpLegacy: Option<nat>,
    online: Option<bool>,
    endpoints: seq<string>,
    lastSeen: Option<string>,
    keyExpiry: Option<string>)

  datatype PeerChange = PeerChange(
    nodeId: int,
    key: Option<NodeKey>,
    discoKey: Option<NodeKey>,
    homeDerp: Option<nat>,
    derpRegionLegacy: Option<nat>,
    endpoints: Option<seq<string>>,
    online: Option<bool>,
    lastSeen: Option<string>,
    keyExpiry: Option<string>)

  datatype MapResponse = MapResponse(
    peers: Option<seq<NodeWire>>,
    peersChanged: Option<seq<NodeWire>>,
    peersRemoved: Option<seq<int>>,
    peersChangedPatch: Option<seq<PeerChange>>)

  datatype RekeyedPeer = RekeyedPeer(oldKey: NodeKey, snapshot: PeerSnapshot)

  datatype Delta = Delta(
    upserted: seq<PeerSnapshot>,
    removed: seq<NodeKey>,
    rekeyed: seq<RekeyedPeer>,
    patchesApplied: nat,
    patchesSkipped: nat)

  /** The two indexes: peers by node key, and node id to node key. */
  datatype Table = Table(peers: map<NodeKey, PeerSnapshot>, ids: map<int, NodeKey>)

  /** A table in the middle of a frame, with the delta collected so far. */
  datatype Work = Work(table: Table, delta: Delta)

  const EMPTY_TABLE := Table(map[], map[])
  const EMPTY_DELTA := Delta([], [], [], 0, 0)

  // ---------- one node, one patch ----------

  /** What a wire node becomes in the table; nothing when its key does not parse. */
  function NodeToSnapshot(n: NodeWire): Option<PeerSnapshot> {
    if n.key.None? then None
    else Some(PeerSnapshot(
      n.id,
      n.key.value,
      n.discoKey,
      n.name,
      if n.allowedIps == [] then n.addresses else n.allowedIps,
      if n.homeDerp != 0 then n.homeDerp else if n.derpLegacy.Some? then n.derpLegacy.value else 0,
      n.online.Some? && n.online.value,
      n.endpoints,
      n.lastSeen,
      n.keyExpiry))
  }

  function PatchFields(peer: PeerSnapshot, patch: PeerChange): PeerSnapshot {
    peer.(
    homeDerp := if patch.homeDerp.Some? then patch.homeDerp.value
                else if patch.derpRegionLegacy.Some? then patch.derpRegionLegacy.value
                else peer.homeDerp,
    discoKey := if patch.discoKey.Some? then patch.discoKey else peer.discoKey,
    online := if patch.online.Some? then patch.online.value else peer.online,
    endpoints := if patch.endpoints.Some? then patch.endpoints.value else peer.endpoints,
    lastSeen := if patch.lastSeen.Some? then patch.lastSeen else peer.lastSeen,
    keyExpiry := if patch.keyExpiry.Some? then patch.keyExpiry else peer.keyExpiry)
  }

  function Upsert(w: Work, n: NodeWire): Work {
    match NodeToSnapshot(n)
    case None => w
    case Some(snap) =>
      Work(
        Table(w.table.peers[snap.nodeKey := snap], w.table.ids[snap.nodeId := snap.nodeKey]),
        w.delta.(upserted := w.delta.upserted + [snap]))
  }

  function RemoveId(w: Work, id: int): Work {
    if id !in w.table.ids then w
    else
      var key := w.table.ids[id];
      Work(
        Table(w.table.peers - {key}, w.table.ids - {id}),
        w.delta.(removed := w.delta.removed + [key]))
  }

  /** A patch gives its node a new key. */
  predicate Rekeys(patch: PeerChange, current: NodeKey) {
    patch.key.Some? && patch.key.value != current
  }

  function Patch(w: Work, patch: PeerChange): Work {
    if patch.nodeId !in w.table.ids then
      w.(delta := w.delta.(patchesSkipped := w.delta.patchesSkipped + 1))
    else
      var key := w.table.ids[patch.nodeId];
      if key !in w.table.peers then
        w.(delta := w.delta.(patchesSkipped := w.delta.patchesSkipped + 1))
      else if Rekeys(patch, key) then
        var moved := PatchFields(w.table.peers[key].(nodeKey := patch.key.value), patch);
        Work(
          Table((w.table.peers - {key})[moved.nodeKey := moved], w.table.ids[moved.nodeId := moved.nodeKey]),
          w.delta.(rekeyed := w.delta.rekeyed + [RekeyedPeer(key, moved)],
          patchesApplied := w.delta.patchesApplied + 1))
      else
        var peer := PatchFields(w.table.peers[key], patch);
        Work(
          w.table.(peers := w.table.peers[key := peer]),
          w.delta.(upserted := w.delta.upserted + [peer],
          patchesApplied := w.delta.patchesApplied + 1))
  }

  // ---------- whole phases ----------

  function UpsertAll(w: Work, nodes: seq<NodeWire>): Work {
    if nodes == [] then w else Upsert(UpsertAll(w, Init(nodes)), Last(nodes))
  }

  function RemoveIds(w: Work, ids: seq<int>): Work {
    if ids == [] then w else RemoveId(RemoveIds(w, Init(ids)), Last(ids))
  }

  function PatchAll(w: Work, patches: seq<PeerChange>): Work {
    if patches == [] then w else Patch(PatchAll(w, Init(patches)), Last(patches))
  }

  /** The keys a list of wire nodes names. */
  function KeysOf(nodes: seq<NodeWire>): set<NodeKey> {
    set n | n in nodes && n.key.Some? :: n.key.value
  }

  /** Drop, in the given order, the peers that the full set does not name. */
  function DropAbsent(w: Work, order: seq<NodeKey>, kept: set<NodeKey>): Work {
    if order == [] then w
    else
      var v := DropAbsent(w, Init(order), kept);
      if Last(order) in kept then v
      else Work(v.table.(peers := v.table.peers - {Last(order)}),
                v.delta.(removed := v.delta.removed + [Last(order)]))
  }

  /** The full set replaces the table; `order` is the order in which the old keys are visited. */
  function ReplaceAll(w: Work, nodes: seq<NodeWire>, order: seq<NodeKey>): Work {
    var dropped := DropAbsent(w, order, KeysOf(nodes));
    UpsertAll(dropped.(table := dropped.table.(ids := map[])), nodes)
  }

  function ListOf<T>(o: Option<seq<T>>): seq<T> {
    if o.Some? then o.value else []
  }

  /** The first two phases: the full set, then the upserts. */
  function AfterUpserts(t: Table, f: MapResponse, order: seq<NodeKey>): Work {
    var w := Work(t, EMPTY_DELTA);
    UpsertAll(if f.peers.Some? then ReplaceAll(w, f.peers.value, order) else w, ListOf(f.peersChanged))
  }

  /** The first three phases. */
  function AfterRemovals(t: Table, f: MapResponse, order: seq<NodeKey>): Work {
    RemoveIds(AfterUpserts(t, f, order), ListOf(f.peersRemoved))
  }

  /** The whole frame. */
  function ApplyFrame(t: Table, f: MapResponse, order: seq<NodeKey>): Work {
    PatchAll(AfterRemovals(t, f, order), ListOf(f.peersChangedPatch))
  }

  /** `order` lists the members of `keys`, as an iteration over a hash map does. */
  ghost predicate Enumerates(order: seq<NodeKey>, keys: set<NodeKey>) {
    (set k | k in order) == keys
  }

  // ---------- the table, updated in place ----------

  class NetMap {
    var peers: map<NodeKey, PeerSnapshot>
    var idToKey: map<int, NodeKey>

    ghost function Contents(): Table
      reads this
    {
      Table(peers, idToKey)
    }

    constructor ()
      ensures Contents() == EMPTY_TABLE
    {
      peers, idToKey := map[], map[];
    }

    method Apply(resp: MapResponse) returns (delta: Delta, ghost order: seq<NodeKey>)
      modifies this
      ensures Enumerates(order, old(peers.Keys))
      ensures Work(Contents(), delta) == ApplyFrame(old(Contents()), resp, order)
    {
      delta := EMPTY_DELTA;
      order := [];
      ghost var start := Work(Contents(), delta);
      if resp.peers.Some? {
        delta, order := ReplacePeers(resp.peers.value, delta);
      } else {
        order := EnumerationOf(peers.Keys);
      }
      ghost var replaced := Work(Contents(), delta);
      delta := UpsertPeers(ListOf(resp.peersChanged), delta);

      ghost var upserted := Work(Contents(), delta);
      var gone := ListOf(resp.peersRemoved);
      for i := 0 to |gone|
        invariant Work(Contents(), delta) == RemoveIds(upserted, gone[..i])
      {
        assert Init(gone[..i + 1]) == gone[..i];
        if gone[i] in idToKey {
          var key := idToKey[gone[i]];
          idToKey := idToKey - {gone[i]};
          peers := peers - {key};
          delta := delta.(removed := delta.removed + [key]);
        }
      }
      assert gone[..|gone|] == gone;

      ghost var removed := Work(Contents(), delta);
      var patches := ListOf(resp.peersChangedPatch);
      for i := 0 to |patches|
        invariant Work(Contents(), delta) == PatchAll(removed, patches[..i])
      {
        assert Init(patches[..i + 1]) == patches[..i];
        delta := ApplyPatch(patches[i], delta);
      }
      assert patches[..|patches|] == patches;
    }

    method ReplacePeers(nodes: seq<NodeWire>, delta0: Delta) returns (delta: Delta, ghost order: seq<NodeKey>)
      modifies this
      ensures Enumerates(order, old(peers.Keys))
      ensures Work(Contents(), delta) == ReplaceAll(Work(old(Contents()), delta0), nodes, order)
    {
      delta := delta0;
      order := [];
      var kept := KeysOf(nodes);
      var rest := peers.Keys;
      while rest != {}
        invariant (set k | k in order) + rest == old(peers.Keys)
        invariant Work(Contents(), delta) == DropAbsent(Work(old(Contents()), delta0), order, kept)
        decreases rest
      {
        var key :| key in rest;
        rest := rest - {key};
        assert Init(order + [key]) == order;
        order := order + [key];
        if key !in kept {
          peers := peers - {key};
          delta := delta.(removed := delta.removed + [key]);
        }
      }
      idToKey := map[];
      delta := UpsertPeers(nodes, delta);
    }

    method UpsertPeers(nodes: seq<NodeWire>, delta0: Delta) returns (delta: Delta)
      modifies this
      ensures Work(Contents(), delta) == UpsertAll(Work(old(Contents()), delta0), nodes)
    {
      delta := delta0;
      for i := 0 to |nodes|
        invariant Work(Contents(), delta) == UpsertAll(Work(old(Contents()), delta0), nodes[..i])
      {
        assert Init(nodes[..i + 1]) == nodes[..i];
        match NodeToSnapshot(nodes[i]) {
          case None =>
          case Some(snap) =>
            idToKey := idToKey[snap.nodeId := snap.nodeKey];
            peers := peers[snap.nodeKey := snap];
            delta := delta.(upserted := delta.upserted + [snap]);
        }
      }
      assert nodes[..|nodes|] == nodes;
    }

    method ApplyPatch(patch: PeerChange, delta0: Delta) returns (delta: Delta)
      modifies this
      ensures Work(Contents(), delta) == Patch(Work(old(Contents()), delta0), patch)
    {
      delta := delta0;
      if patch.nodeId !in idToKey {
        delta := delta.(patchesSkipped := delta.patchesSkipped + 1);
        return;
      }
      var nodeKey := idToKey[patch.nodeId];
      if nodeKey !in peers {
        delta := delta.(patchesSkipped := delta.patchesSkipped + 1);
        return;
      }
      if patch.key.Some? && patch.key.value != nodeKey {
        var moved := PatchFields(peers[nodeKey].(nodeKey := patch.key.value), patch);
        peers := peers - {nodeKey};
        idToKey := idToKey[moved.nodeId := patch.key.value];
        peers := peers[patch.key.value := moved];
        delta := delta.(rekeyed := delta.rekeyed + [RekeyedPeer(nodeKey, moved)],
        patchesApplied := delta.patchesApplied + 1);
        return;
      }
      var peer := PatchFields(peers[nodeKey], patch);
      peers := peers[nodeKey := peer];
      delta := delta.(patchesApplied := delta.patchesApplied + 1, upserted := delta.upserted + [peer]);
    }
  }

  /** Some order in which a finite set can be visited. */
  ghost function EnumerationOf(keys: set<NodeKey>): (order: seq<NodeKey>)
    ensures Enumerates(order, keys)
  {
    if keys == {} then []
    else
      var k :| k in keys;
      var rest := EnumerationOf(keys - {k});
      assert (set x | x in [k] + rest) == {k} + (set x | x in rest);
      [k] + rest
  }
}
