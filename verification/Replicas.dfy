/**
Replaying a delta onto the replicas of the peer table.

The runtime keeps two replicas: `peer_regions` (node key to DERP region) and the
peer set of the WireGuard engine. Both are updated from the delta of a frame,
upserts first, then removals, then rekeys, while the table itself was changed
in the order of the frame's phases. The theorems say what survives that
reordering, over every sequence of frames.
*/
module Replicas {
  import opened Common
  import opened NetMap
  import opened NetMapIndex

  type Regions = map<NodeKey, nat>

  // ---------- the replay ----------

  function RegionOf(p: PeerSnapshot, ourHome: nat): nat {
    if p.homeDerp != 0 then p.homeDerp else ourHome
  }

  function ReplayUpserts(r: Regions, ups: seq<PeerSnapshot>, ourHome: nat): Regions {
    if ups == [] then r
    else ReplayUpserts(r, Init(ups), ourHome)[Last(ups).nodeKey := RegionOf(Last(ups), ourHome)]
  }

  function ReplayRemovals(r: Regions, removed: seq<NodeKey>): Regions {
    if removed == [] then r else ReplayRemovals(r, Init(removed)) - {Last(removed)}
  }

  function ReplayRekeys(r: Regions, rekeyed: seq<RekeyedPeer>, ourHome: nat): Regions {
    if rekeyed == [] then r
    else
      var s := Last(rekeyed).snapshot;
      (ReplayRekeys(r, Init(rekeyed), ourHome) - {Last(rekeyed).oldKey})[s.nodeKey := RegionOf(s, ourHome)]
  }

  function Replay(r: Regions, d: Delta, ourHome: nat): Regions {
    ReplayRekeys(ReplayRemovals(ReplayUpserts(r, d.upserted, ourHome), d.removed), d.rekeyed, ourHome)
  }

  method UpdatePeerRegions(regions0: Regions, delta: Delta, ourHome: nat) returns (regions: Regions)
    ensures regions == Replay(regions0, delta, ourHome)
  {
    regions := regions0;
    for i := 0 to |delta.upserted|
      invariant regions == ReplayUpserts(regions0, delta.upserted[..i], ourHome)
    {
      assert Init(delta.upserted[..i + 1]) == delta.upserted[..i];
      var p := delta.upserted[i];
      var region := if p.homeDerp != 0 then p.homeDerp else ourHome;
      regions := regions[p.nodeKey := region];
    }
    assert delta.upserted[..|delta.upserted|] == delta.upserted;
    ghost var upserted := regions;
    for i := 0 to |delta.removed|
      invariant regions == ReplayRemovals(upserted, delta.removed[..i])
    {
      assert Init(delta.removed[..i + 1]) == delta.removed[..i];
      regions := regions - {delta.removed[i]};
    }
    assert delta.removed[..|delta.removed|] == delta.removed;
    ghost var removed := regions;
    for i := 0 to |delta.rekeyed|
      invariant regions == ReplayRekeys(removed, delta.rekeyed[..i], ourHome)
    {
      assert Init(delta.rekeyed[..i + 1]) == delta.rekeyed[..i];
      var s := delta.rekeyed[i].snapshot;
      regions := regions - {delta.rekeyed[i].oldKey};
      var region := if s.homeDerp != 0 then s.homeDerp else ourHome;
      regions := regions[s.nodeKey := region];
    }
    assert delta.rekeyed[..|delta.rekeyed|] == delta.rekeyed;
  }

  // ---------- what one key sees of a list of changes ----------

  /** What the rekeys of a frame leave at one key. */
  datatype Trace = Untouched | Gone | Moved(snapshot: PeerSnapshot)

  ghost function TraceOf(rekeyed: seq<RekeyedPeer>, k: NodeKey): Trace {
    if rekeyed == [] then Untouched
    else if Last(rekeyed).snapshot.nodeKey == k then Moved(Last(rekeyed).snapshot)
    else if Last(rekeyed).oldKey == k then Gone
    else TraceOf(Init(rekeyed), k)
  }

  /** The last snapshot a list of upserts holds for one key. */
  ghost function Latest(ups: seq<PeerSnapshot>, k: NodeKey): Option<PeerSnapshot> {
    if ups == [] then None
    else if Last(ups).nodeKey == k then Some(Last(ups))
    else Latest(Init(ups), k)
  }

  lemma {:induction false} LatestAppend(xs: seq<PeerSnapshot>, ys: seq<PeerSnapshot>, k: NodeKey)
    ensures Latest(xs + ys, k) == if Latest(ys, k).Some? then Latest(ys, k) else Latest(xs, k)
  {
    if ys == [] {
      assert xs + ys == xs;
    } else {
      assert Init(xs + ys) == xs + Init(ys);
      LatestAppend(xs, Init(ys), k);
    }
  }

  lemma {:induction false} UpsertsAt(r: Regions, ups: seq<PeerSnapshot>, ourHome: nat, k: NodeKey)
    ensures k in ReplayUpserts(r, ups, ourHome) <==> k in r || Latest(ups, k).Some?
    ensures k in ReplayUpserts(r, ups, ourHome) ==>
              ReplayUpserts(r, ups, ourHome)[k] ==
              if Latest(ups, k).Some? then RegionOf(Latest(ups, k).value, ourHome) else r[k]
  {
    if ups != [] {
      UpsertsAt(r, Init(ups), ourHome, k);
    }
  }

  lemma {:induction false} RemovalsAt(r: Regions, removed: seq<NodeKey>)
    ensures ReplayRemovals(r, removed) == r - (set k | k in removed)
  {
    if removed != [] {
      RemovalsAt(r, Init(removed));
      assert forall k :: k in removed <==> k in Init(removed) || k == Last(removed);
    }
  }

  lemma {:induction false} RekeysAt(r: Regions, rekeyed: seq<RekeyedPeer>, ourHome: nat, k: NodeKey)
    ensures k in ReplayRekeys(r, rekeyed, ourHome) <==>
            match TraceOf(rekeyed, k)
            case Untouched => k in r
            case Gone => false
            case Moved(_) => true
    ensures k in ReplayRekeys(r, rekeyed, ourHome) ==>
              ReplayRekeys(r, rekeyed, ourHome)[k] ==
              match TraceOf(rekeyed, k)
              case Untouched => r[k]
              case Gone => 0
              case Moved(s) => RegionOf(s, ourHome)
  {
    if rekeyed != [] {
      RekeysAt(r, Init(rekeyed), ourHome, k);
    }
  }

  /** The whole replay, seen from one key. */
  lemma ReplayAt(r: Regions, d: Delta, ourHome: nat, k: NodeKey)
    ensures k in Replay(r, d, ourHome) <==>
            match TraceOf(d.rekeyed, k)
            case Untouched => (k in r || Latest(d.upserted, k).Some?) && k !in d.removed
            case Gone => false
            case Moved(_) => true
    ensures k in Replay(r, d, ourHome) ==>
              Replay(r, d, ourHome)[k] ==
              match TraceOf(d.rekeyed, k)
              case Untouched =>
                if Latest(d.upserted, k).Some? then RegionOf(Latest(d.upserted, k).value, ourHome) else r[k]
              case Gone => 0
              case Moved(s) => RegionOf(s, ourHome)
  {
    UpsertsAt(r, d.upserted, ourHome, k);
    RemovalsAt(ReplayUpserts(r, d.upserted, ourHome), d.removed);
    RekeysAt(ReplayRemovals(ReplayUpserts(r, d.upserted, ourHome), d.removed), d.rekeyed, ourHome, k);
  }

  // ---------- what one key sees of the phases of a frame ----------

  /** Each stored peer sits under its own key. */
  ghost predicate Keyed(t: Table) {
    forall k | k in t.peers :: t.peers[k].nodeKey == k
  }

  /** What a table holds at one key, in terms of an earlier table and the upserts since. */
  ghost predicate FollowsUpserts(before: Table, after: Table, ups: seq<PeerSnapshot>, k: NodeKey) {
    k in after.peers ==>
      if Latest(ups, k).Some? then after.peers[k] == Latest(ups, k).value
      else k in before.peers && after.peers[k] == before.peers[k]
  }

  lemma {:induction false} UpsertAllAt(w: Work, nodes: seq<NodeWire>, k: NodeKey) returns (ups: seq<PeerSnapshot>)
    requires Keyed(w.table)
    ensures UpsertAll(w, nodes).delta == w.delta.(upserted := w.delta.upserted + ups)
    ensures Keyed(UpsertAll(w, nodes).table)
    ensures k in UpsertAll(w, nodes).table.peers <==> k in w.table.peers || Latest(ups, k).Some?
    ensures FollowsUpserts(w.table, UpsertAll(w, nodes).table, ups, k)
    ensures Latest(ups, k).Some? <==> k in KeysOf(nodes)
  {
    if nodes == [] {
      ups := [];
    } else {
      var earlier := UpsertAllAt(w, Init(nodes), k);
      assert nodes == Init(nodes) + [Last(nodes)];
      assert KeysOf(nodes) == KeysOf(Init(nodes)) + KeysOf([Last(nodes)]);
      match NodeToSnapshot(Last(nodes)) {
        case None =>
          ups := earlier;
        case Some(snap) =>
          ups := earlier + [snap];
          assert Init(ups) == earlier;
      }
    }
  }

  lemma {:induction false} RemoveIdsAt(w: Work, ids: seq<int>, k: NodeKey) returns (gone: seq<NodeKey>)
    requires Keyed(w.table)
    ensures RemoveIds(w, ids).delta == w.delta.(removed := w.delta.removed + gone)
    ensures Keyed(RemoveIds(w, ids).table)
    ensures k in RemoveIds(w, ids).table.peers <==> k in w.table.peers && k !in gone
    ensures k in RemoveIds(w, ids).table.peers ==> RemoveIds(w, ids).table.peers[k] == w.table.peers[k]
  {
    if ids == [] {
      gone := [];
    } else {
      var earlier := RemoveIdsAt(w, Init(ids), k);
      var v := RemoveIds(w, Init(ids));
      gone := if Last(ids) in v.table.ids then earlier + [v.table.ids[Last(ids)]] else earlier;
    }
  }

  /** The key a patch changes without rekeying it, if it does that. */
  ghost function PlainTarget(t: Table, p: PeerChange): Option<NodeKey> {
    if p.nodeId in t.ids && t.ids[p.nodeId] in t.peers && !Rekeys(p, t.ids[p.nodeId]) then Some(t.ids[p.nodeId])
    else None
  }

  /** No patch changes an entry that an earlier patch of the same frame moved to a new key. */
  ghost predicate NoPatchAfterRekey(w: Work, patches: seq<PeerChange>) {
    patches == [] ||
    (&& NoPatchAfterRekey(w, Init(patches))
     && var v := PatchAll(w, Init(patches));
        var target := PlainTarget(v.table, Last(patches));
        target.Some? ==> !TraceOf(v.delta.rekeyed, target.value).Moved?)
  }

  /** A patch is skipped, changes one entry in place, or moves one entry to a new key. */
  lemma PatchCases(w: Work, p: PeerChange)
    requires Keyed(w.table)
    ensures var v := Patch(w, p);
            && v.delta.removed == w.delta.removed
            && Keyed(v.table)
            && match PlainTarget(w.table, p)
               case Some(t) =>
                 var peer := PatchFields(w.table.peers[t], p);
                 && peer.nodeKey == t
                 && v.delta.upserted == w.delta.upserted + [peer]
                 && v.delta.rekeyed == w.delta.rekeyed
                 && v.table.peers == w.table.peers[t := peer]
               case None =>
                 && v.delta.upserted == w.delta.upserted
                 && (v.delta.rekeyed == w.delta.rekeyed ==> v.table.peers == w.table.peers)
                 && (v.delta.rekeyed != w.delta.rekeyed ==>
                       && |v.delta.rekeyed| == |w.delta.rekeyed| + 1
                       && Init(v.delta.rekeyed) == w.delta.rekeyed
                       && var m := Last(v.delta.rekeyed);
                          v.table.peers == (w.table.peers - {m.oldKey})[m.snapshot.nodeKey := m.snapshot])
  {
  }

  /** What one key sees of some patches: the upserts they made, and their rekeys. */
  ghost predicate SeenAt(before: Table, v: Work, ups: seq<PeerSnapshot>, k: NodeKey, rekeysLast: bool) {
    && (Latest(ups, k).Some? && TraceOf(v.delta.rekeyed, k).Untouched? ==> k in before.peers)
    && match TraceOf(v.delta.rekeyed, k)
       case Untouched => (k in v.table.peers <==> k in before.peers) && FollowsUpserts(before, v.table, ups, k)
       case Gone => k !in v.table.peers
       case Moved(s) => k in v.table.peers && (rekeysLast ==> v.table.peers[k] == s)
  }

  /** The upserts one more patch adds. */
  ghost function UpsertsOf(v: Work, p: PeerChange): seq<PeerSnapshot> {
    var target := PlainTarget(v.table, p);
    if target.Some? then [PatchFields(v.table.peers[target.value], p)] else []
  }

  ghost predicate PatchesUnmoved(v: Work, p: PeerChange) {
    var target := PlainTarget(v.table, p);
    target.Some? ==> !TraceOf(v.delta.rekeyed, target.value).Moved?
  }

  lemma SeenUpsert(before: Table, v: Work, v': Work, peer: PeerSnapshot, ups: seq<PeerSnapshot>, k: NodeKey,
                   rekeysLast: bool)
    requires SeenAt(before, v, ups, k, rekeysLast) && peer.nodeKey in v.table.peers
    requires v'.delta.rekeyed == v.delta.rekeyed && v'.table.peers == v.table.peers[peer.nodeKey := peer]
    ensures SeenAt(before, v', ups + [peer], k, rekeysLast && !TraceOf(v.delta.rekeyed, peer.nodeKey).Moved?)
  {
    assert Init(ups + [peer]) == ups;
  }

  lemma SeenRekey(before: Table, v: Work, v': Work, ups: seq<PeerSnapshot>, k: NodeKey, rekeysLast: bool)
    requires SeenAt(before, v, ups, k, rekeysLast)
    requires v'.delta.rekeyed != [] && Init(v'.delta.rekeyed) == v.delta.rekeyed
    requires var m := Last(v'.delta.rekeyed);
             v'.table.peers == (v.table.peers - {m.oldKey})[m.snapshot.nodeKey := m.snapshot]
    ensures SeenAt(before, v', ups, k, rekeysLast)
  {
  }

  lemma SeenStep(before: Table, v: Work, v': Work, p: PeerChange, ups: seq<PeerSnapshot>, k: NodeKey, rekeysLast: bool)
    requires Keyed(v.table) && SeenAt(before, v, ups, k, rekeysLast) && v' == Patch(v, p)
    ensures SeenAt(before, v', ups + UpsertsOf(v, p), k, rekeysLast && PatchesUnmoved(v, p))
  {
    PatchCases(v, p);
    if PlainTarget(v.table, p).Some? {
      SeenUpsert(before, v, v', UpsertsOf(v, p)[0], ups, k, rekeysLast);
    } else {
      Empty(ups);
      if v'.delta.rekeyed != v.delta.rekeyed {
        SeenRekey(before, v, v', ups, k, rekeysLast);
      }
    }
  }

  lemma {:induction false} PatchAllAt(w: Work, patches: seq<PeerChange>, k: NodeKey) returns (ups: seq<PeerSnapshot>)
    requires Keyed(w.table) && w.delta.rekeyed == []
    ensures var v := PatchAll(w, patches);
            && v.delta.upserted == w.delta.upserted + ups
            && v.delta.removed == w.delta.removed
            && Keyed(v.table)
    ensures SeenAt(w.table, PatchAll(w, patches), ups, k, NoPatchAfterRekey(w, patches))
  {
    if patches == [] {
      ups := [];
      Empty(w.delta.upserted);
    } else {
      var earlier := PatchAllAt(w, Init(patches), k);
      var v, p := PatchAll(w, Init(patches)), Last(patches);
      PatchCases(v, p);
      SeenStep(w.table, v, PatchAll(w, patches), p, earlier, k, NoPatchAfterRekey(w, Init(patches)));
      ups := earlier + UpsertsOf(v, p);
      Assoc(w.delta.upserted, earlier, UpsertsOf(v, p));
      Empty(w.delta.upserted + earlier);
    }
  }

  /** The peers a full set leaves out; none when the frame carries no full set. */
  ghost function DroppedBy(t: Table, f: MapResponse): set<NodeKey> {
    if f.peers.Some? then t.peers.Keys - KeysOf(f.peers.value) else {}
  }

  /** The full-set phase, seen from one key. */
  lemma ReplaceAllAt(t: Table, f: MapResponse, order: seq<NodeKey>, k: NodeKey) returns (ups: seq<PeerSnapshot>)
    requires Keyed(t) && Enumerates(order, t.peers.Keys) && f.peers.Some?
    ensures var v := ReplaceAll(Work(t, EMPTY_DELTA), f.peers.value, order);
            && Keyed(v.table)
            && v.delta.upserted == ups && v.delta.rekeyed == []
            && (k in v.delta.removed <==> k in DroppedBy(t, f))
            && (k in v.table.peers <==> (k in t.peers && k !in DroppedBy(t, f)) || Latest(ups, k).Some?)
            && FollowsUpserts(t, v.table, ups, k)
            && (Latest(ups, k).Some? ==> k !in DroppedBy(t, f))
  {
    var w := Work(t, EMPTY_DELTA);
    var kept := KeysOf(f.peers.value);
    DropAbsentPeers(w, order, kept);
    assert forall x :: x in order <==> x in (set y | y in order);
    var d := DropAbsent(w, order, kept);
    ups := UpsertAllAt(d.(table := d.table.(ids := map[])), f.peers.value, k);
    assert EMPTY_DELTA.upserted + ups == ups;
  }

  /** The first three phases, seen from one key. */
  lemma RemovalsPhaseAt(t: Table, f: MapResponse, order: seq<NodeKey>, k: NodeKey)
    requires Keyed(t) && Enumerates(order, t.peers.Keys)
    ensures var a := AfterRemovals(t, f, order);
            && Keyed(a.table) && a.delta.rekeyed == []
            && (k in a.table.peers && k in a.delta.removed ==> k in DroppedBy(t, f))
            && (k in a.table.peers && k in DroppedBy(t, f) ==>
                  k in a.delta.removed && k in KeysOf(ListOf(f.peersChanged)))
            && (k in a.table.peers ==> k in t.peers || Latest(a.delta.upserted, k).Some?)
            && (k !in a.table.peers && (k in t.peers || Latest(a.delta.upserted, k).Some?) ==> k in a.delta.removed)
            && FollowsUpserts(t, a.table, a.delta.upserted, k)
  {
    var w := Work(t, EMPTY_DELTA);
    var first: seq<PeerSnapshot> := [];
    if f.peers.Some? {
      first := ReplaceAllAt(t, f, order, k);
    }
    var v := if f.peers.Some? then ReplaceAll(w, f.peers.value, order) else w;
    var second := UpsertAllAt(v, ListOf(f.peersChanged), k);
    LatestAppend(first, second, k);
    var gone := RemoveIdsAt(AfterUpserts(t, f, order), ListOf(f.peersRemoved), k);
  }

  /**
  Keys the replay loses: the full set leaves them out, the same frame upserts
  them again, and nothing in the frame removes or rekeys them afterwards.
  */
  ghost predicate Lost(t: Table, f: MapResponse, order: seq<NodeKey>, k: NodeKey) {
    && k in DroppedBy(t, f)
    && k in AfterRemovals(t, f, order).table.peers
    && TraceOf(ApplyFrame(t, f, order).delta.rekeyed, k).Untouched?
  }

  /** A whole frame and its replay, seen from one key. */
  lemma FrameAt(t: Table, r: Regions, f: MapResponse, order: seq<NodeKey>, ourHome: nat, k: NodeKey)
    requires Keyed(t) && Enumerates(order, t.peers.Keys)
    requires k in t.peers ==> k in r
    ensures var v := ApplyFrame(t, f, order);
            var r' := Replay(r, v.delta, ourHome);
            && Keyed(v.table)
            && (Lost(t, f, order, k) ==> k in v.table.peers && k !in r')
            && (!Lost(t, f, order, k) && k in v.table.peers ==> k in r')
            && (k in r' && k !in v.table.peers ==> k in r && k !in t.peers)
    ensures var v := ApplyFrame(t, f, order);
            var r' := Replay(r, v.delta, ourHome);
            k in v.table.peers && k in r' ==>
              match TraceOf(v.delta.rekeyed, k)
              case Untouched => (k in t.peers && v.table.peers[k] == t.peers[k] && r'[k] == r[k])
                                || r'[k] == RegionOf(v.table.peers[k], ourHome)
              case Gone => false
              case Moved(s) => r'[k] == RegionOf(s, ourHome) &&
                               (NoPatchAfterRekey(AfterRemovals(t, f, order), ListOf(f.peersChangedPatch)) ==>
                                  v.table.peers[k] == s)
  {
    var a := AfterRemovals(t, f, order);
    var v := ApplyFrame(t, f, order);
    RemovalsPhaseAt(t, f, order, k);
    var ups := PatchAllAt(a, ListOf(f.peersChangedPatch), k);
    LatestAppend(a.delta.upserted, ups, k);
    ReplayAt(r, v.delta, ourHome, k);
  }

  // ---------- one frame ----------

  /** Every peer with a home region of its own has exactly that region in the replica. */
  ghost predicate RegionsRight(t: Table, r: Regions) {
    forall k | k in t.peers && t.peers[k].homeDerp != 0 :: k in r && r[k] == t.peers[k].homeDerp
  }

  /** The replica's keys follow the table through a frame exactly when the frame loses no key. */
  lemma KeysFollowFrameIff(t: Table, r: Regions, f: MapResponse, order: seq<NodeKey>, ourHome: nat)
    requires Keyed(t) && Enumerates(order, t.peers.Keys) && r.Keys == t.peers.Keys
    ensures var v := ApplyFrame(t, f, order);
            Replay(r, v.delta, ourHome).Keys == v.table.peers.Keys <==> !exists k :: Lost(t, f, order, k)
  {
    var v := ApplyFrame(t, f, order);
    var r' := Replay(r, v.delta, ourHome);
    forall k
      ensures Lost(t, f, order, k) ==> k in v.table.peers && k !in r'
      ensures !Lost(t, f, order, k) ==> (k in v.table.peers <==> k in r')
    {
      FrameAt(t, r, f, order, ourHome, k);
    }
    if k :| Lost(t, f, order, k) {
      assert k in v.table.peers.Keys && k !in r'.Keys;
    } else {
      assert forall k :: k in v.table.peers.Keys <==> k in r'.Keys;
    }
  }

  /** A frame loses keys only when it carries both a full set and upserts. */
  lemma NothingLost(t: Table, f: MapResponse, order: seq<NodeKey>)
    requires Keyed(t) && Enumerates(order, t.peers.Keys)
    requires f.peers.None? || f.peersChanged.None?
    ensures !exists k :: Lost(t, f, order, k)
  {
    forall k ensures !Lost(t, f, order, k) {
      RemovalsPhaseAt(t, f, order, k);
    }
  }

  /**
  After a frame that loses no key, every region is right exactly when no entry
  that the frame rekeyed had its home region changed by a later patch of the
  same frame: the replica keeps the region the entry had when it was moved.
  */
  lemma RegionsFollowFrameIff(t: Table, r: Regions, f: MapResponse, order: seq<NodeKey>, ourHome: nat)
    requires Keyed(t) && Enumerates(order, t.peers.Keys) && t.peers.Keys <= r.Keys && RegionsRight(t, r)
    requires !exists k :: Lost(t, f, order, k)
    ensures var v := ApplyFrame(t, f, order);
            RegionsRight(v.table, Replay(r, v.delta, ourHome)) <==>
            forall k | k in v.table.peers && v.table.peers[k].homeDerp != 0 && TraceOf(v.delta.rekeyed, k).Moved? ::
              RegionOf(TraceOf(v.delta.rekeyed, k).snapshot, ourHome) == v.table.peers[k].homeDerp
  {
    var v := ApplyFrame(t, f, order);
    var r' := Replay(r, v.delta, ourHome);
    forall k | k in v.table.peers && v.table.peers[k].homeDerp != 0
      ensures k in r'
      ensures r'[k] == v.table.peers[k].homeDerp <==>
              (TraceOf(v.delta.rekeyed, k).Moved? ==>
                 RegionOf(TraceOf(v.delta.rekeyed, k).snapshot, ourHome) == v.table.peers[k].homeDerp)
    {
      FrameAt(t, r, f, order, ourHome, k);
    }
  }

  /** The home region a patch names, under either of its two spellings. */
  function HomeOf(p: PeerChange): Option<nat> {
    if p.homeDerp.Some? then p.homeDerp else p.derpRegionLegacy
  }

  /** The home region that the patches after the last move to key `k` give the entry there, if they name one. */
  ghost function LateHome(w: Work, patches: seq<PeerChange>, k: NodeKey): Option<nat> {
    if patches == [] then None
    else
      var v, p := PatchAll(w, Init(patches)), Last(patches);
      if PlainTarget(v.table, p) == Some(k) then
        if HomeOf(p).Some? then HomeOf(p) else LateHome(w, Init(patches), k)
      else if Patch(v, p).delta.rekeyed != v.delta.rekeyed && p.key == Some(k) then None
      else LateHome(w, Init(patches), k)
  }

  /** A moved entry has the home region it was moved with, or the one a later patch names. */
  lemma {:induction false} HomeAfterMove(w: Work, patches: seq<PeerChange>, k: NodeKey)
    requires Keyed(w.table) && w.delta.rekeyed == [] && TraceOf(PatchAll(w, patches).delta.rekeyed, k).Moved?
    ensures var v := PatchAll(w, patches);
            && k in v.table.peers
            && v.table.peers[k].homeDerp ==
               if LateHome(w, patches, k).Some? then LateHome(w, patches, k).value
               else TraceOf(v.delta.rekeyed, k).snapshot.homeDerp
  {
    var earlier := PatchAllAt(w, Init(patches), k);
    var v, p := PatchAll(w, Init(patches)), Last(patches);
    PatchCases(v, p);
    if TraceOf(v.delta.rekeyed, k).Moved? {
      HomeAfterMove(w, Init(patches), k);
    }
  }

  /**
  The same condition, read off the patches: regions stay right exactly when no patch gives
  an entry, after the frame moved it to a new key, a home region other than the one it had
  when it was moved.
  */
  lemma RegionsFollowPatchesIff(t: Table, r: Regions, f: MapResponse, order: seq<NodeKey>, ourHome: nat)
    requires Keyed(t) && Enumerates(order, t.peers.Keys) && t.peers.Keys <= r.Keys && RegionsRight(t, r)
    requires !exists k :: Lost(t, f, order, k)
    ensures var a, patches := AfterRemovals(t, f, order), ListOf(f.peersChangedPatch);
            var v := PatchAll(a, patches);
            RegionsRight(v.table, Replay(r, v.delta, ourHome)) <==>
            forall k | TraceOf(v.delta.rekeyed, k).Moved? && LateHome(a, patches, k).Some? ::
              LateHome(a, patches, k).value in {0, RegionOf(TraceOf(v.delta.rekeyed, k).snapshot, ourHome)}
  {
    var a, patches := AfterRemovals(t, f, order), ListOf(f.peersChangedPatch);
    var v := PatchAll(a, patches);
    RegionsFollowFrameIff(t, r, f, order, ourHome);
    forall k | TraceOf(v.delta.rekeyed, k).Moved?
      ensures k in v.table.peers
      ensures v.table.peers[k].homeDerp ==
              if LateHome(a, patches, k).Some? then LateHome(a, patches, k).value
              else TraceOf(v.delta.rekeyed, k).snapshot.homeDerp
    {
      RemovalsPhaseAt(t, f, order, k);
      HomeAfterMove(a, patches, k);
    }
  }

  /** One frame: the replica covers the table, with the right regions if no rekeyed entry is patched again. */
  lemma FrameKeepsReplica(t: Table, r: Regions, f: MapResponse, order: seq<NodeKey>, ourHome: nat)
    requires Keyed(t) && Enumerates(order, t.peers.Keys) && t.peers.Keys <= r.Keys
    requires f.peers.None? || f.peersChanged.None?
    ensures var v := ApplyFrame(t, f, order);
            && Keyed(v.table)
            && v.table.peers.Keys <= Replay(r, v.delta, ourHome).Keys
            && (RegionsRight(t, r) && NoPatchAfterRekey(AfterRemovals(t, f, order), ListOf(f.peersChangedPatch)) ==>
                  RegionsRight(v.table, Replay(r, v.delta, ourHome)))
  {
    var v := ApplyFrame(t, f, order);
    var r' := Replay(r, v.delta, ourHome);
    NothingLost(t, f, order);
    forall k
      ensures k in v.table.peers ==> k in r' && v.table.peers[k].nodeKey == k
      ensures k in v.table.peers && RegionsRight(t, r) && v.table.peers[k].homeDerp != 0
              && NoPatchAfterRekey(AfterRemovals(t, f, order), ListOf(f.peersChangedPatch))
              ==> r'[k] == v.table.peers[k].homeDerp
    {
      FrameAt(t, r, f, order, ourHome, k);
    }
  }

  // ---------- every sequence of frames and reconnects ----------

  /** A frame arrives, or the session is replaced: a fresh table, the replica kept. */
  datatype Event =
    | Frame(frame: MapResponse, order: seq<NodeKey>, ourHome: nat)
    | Reconnect

  datatype Pair = Pair(table: Table, regions: Regions)

  const BOTH_EMPTY := Pair(EMPTY_TABLE, map[])

  function Next(p: Pair, e: Event): Pair {
    match e
    case Reconnect => p.(table := EMPTY_TABLE)
    case Frame(f, order, ourHome) =>
      var v := ApplyFrame(p.table, f, order);
      Pair(v.table, Replay(p.regions, v.delta, ourHome))
  }

  function Run(events: seq<Event>): Pair {
    if events == [] then BOTH_EMPTY else Next(Run(Init(events)), Last(events))
  }

  /** Each frame visits the keys its table holds when it arrives, and does not carry two full lists. */
  ghost predicate Orderly(events: seq<Event>) {
    events == [] ||
    (&& Orderly(Init(events))
     && (Last(events).Frame? ==>
           && Enumerates(Last(events).order, Run(Init(events)).table.peers.Keys)
           && (Last(events).frame.peers.None? || Last(events).frame.peersChanged.None?)))
  }

  /** No frame patches an entry that the same frame rekeyed. */
  ghost predicate RekeysLast(events: seq<Event>) {
    events == [] ||
    (&& RekeysLast(Init(events))
     && (Last(events).Frame? ==>
           NoPatchAfterRekey(AfterRemovals(Run(Init(events)).table, Last(events).frame, Last(events).order),
                             ListOf(Last(events).frame.peersChangedPatch))))
  }

  /** Within one session the replica has exactly the keys of the table, after every frame. */
  lemma {:induction false} SessionKeysAgree(events: seq<Event>)
    requires Orderly(events) && forall e | e in events :: e.Frame?
    ensures Keyed(Run(events).table)
    ensures Run(events).regions.Keys == Run(events).table.peers.Keys
  {
    if events != [] {
      var e := Last(events);
      assert e in events && forall x | x in Init(events) :: x in events;
      SessionKeysAgree(Init(events));
      var p := Run(Init(events));
      NothingLost(p.table, e.frame, e.order);
      KeysFollowFrameIff(p.table, p.regions, e.frame, e.order, e.ourHome);
      FrameKeepsReplica(p.table, p.regions, e.frame, e.order, e.ourHome);
    }
  }

  /** Across reconnects the replica still covers the table, with every home region right. */
  lemma {:induction false} ReplicaCoversTable(events: seq<Event>)
    requires Orderly(events)
    ensures Keyed(Run(events).table)
    ensures Run(events).table.peers.Keys <= Run(events).regions.Keys
    ensures RekeysLast(events) ==> RegionsRight(Run(events).table, Run(events).regions)
  {
    if events != [] {
      ReplicaCoversTable(Init(events));
      var e, p := Last(events), Run(Init(events));
      if e.Frame? {
        FrameKeepsReplica(p.table, p.regions, e.frame, e.order, e.ourHome);
      }
    }
  }

  // ---------- the hypotheses are needed ----------

  function WirePatch(id: int, key: Option<NodeKey>, home: Option<nat>): PeerChange {
    PeerChange(id, key, None, home, None, None, None, None, None)
  }

  /** Any frame that rekeys a peer and then changes its home leaves the earlier region in the replica. */
  lemma RekeyThenPatchIsStale(t: Table, r: Regions, order: seq<NodeKey>, id: int, newKey: NodeKey, home: nat,
                              ourHome: nat)
    requires Keyed(t) && IndexSound(t) && Enumerates(order, t.peers.Keys) && t.peers.Keys <= r.Keys
    requires id in t.ids && t.ids[id] != newKey
    requires home != 0 && home != RegionOf(t.peers[t.ids[id]], ourHome)
    ensures var patches := [WirePatch(id, Some(newKey), None), WirePatch(id, None, Some(home))];
            var f := MapResponse(None, None, None, Some(patches));
            var v := ApplyFrame(t, f, order);
            var r' := Replay(r, v.delta, ourHome);
            && newKey in v.table.peers && v.table.peers[newKey].homeDerp == home
            && newKey in r' && r'[newKey] == RegionOf(t.peers[t.ids[id]], ourHome) != home
  {
    var p1, p2 := WirePatch(id, Some(newKey), None), WirePatch(id, None, Some(home));
    var f := MapResponse(None, None, None, Some([p1, p2]));
    var w := Work(t, EMPTY_DELTA);
    assert AfterRemovals(t, f, order) == w;
    assert Init([p1, p2]) == [p1] && Init([p1]) == [];
    assert PatchAll(w, [p1]) == Patch(PatchAll(w, []), p1);
    assert PatchAll(w, [p1, p2]) == Patch(PatchAll(w, [p1]), p2);
    var moved := t.peers[t.ids[id]].(nodeKey := newKey);
    assert PatchAll(w, [p1]).delta.rekeyed == [RekeyedPeer(t.ids[id], moved)];
    FrameAt(t, r, f, order, ourHome, newKey);
  }

  /** A frame with a full set and an upsert of a peer the set leaves out loses that peer in the replica. */
  lemma BothListsLoseAKey(a: NodeWire, t: Table, r: Regions, order: seq<NodeKey>, ourHome: nat)
    requires Keyed(t) && Enumerates(order, t.peers.Keys) && r.Keys == t.peers.Keys
    requires a.key.Some? && a.key.value in t.peers
    ensures var f := MapResponse(Some([]), Some([a]), None, None);
            var v := ApplyFrame(t, f, order);
            a.key.value in v.table.peers && a.key.value !in Replay(r, v.delta, ourHome)
  {
    var f := MapResponse(Some([]), Some([a]), None, None);
    RemovalsPhaseAt(t, f, order, a.key.value);
    assert Init([a]) == [];
    var replaced := ReplaceAll(Work(t, EMPTY_DELTA), [], order);
    assert UpsertAll(replaced, [a]) == Upsert(replaced, a);
    assert Lost(t, f, order, a.key.value);
    FrameAt(t, r, f, order, ourHome, a.key.value);
  }

  // ---------- the engine ----------

  /** The engine may refuse an upsert; `refused` holds the positions in the list where it does. */
  function EngineUpserts(e: set<NodeKey>, ups: seq<PeerSnapshot>, refused: set<nat>): set<NodeKey> {
    if ups == [] then e
    else
      var before := EngineUpserts(e, Init(ups), refused);
      if |ups| - 1 in refused then before else before + {Last(ups).nodeKey}
  }

  function EngineRemovals(e: set<NodeKey>, removed: seq<NodeKey>): set<NodeKey> {
    if removed == [] then e else EngineRemovals(e, Init(removed)) - {Last(removed)}
  }

  function EngineRekeys(e: set<NodeKey>, rekeyed: seq<RekeyedPeer>, refused: set<nat>): set<NodeKey> {
    if rekeyed == [] then e
    else
      var before := EngineRekeys(e, Init(rekeyed), refused) - {Last(rekeyed).oldKey};
      if |rekeyed| - 1 in refused then before else before + {Last(rekeyed).snapshot.nodeKey}
  }

  function PushDelta(e: set<NodeKey>, d: Delta, refusedUps: set<nat>, refusedRekeys: set<nat>): set<NodeKey> {
    EngineRekeys(EngineRemovals(EngineUpserts(e, d.upserted, refusedUps), d.removed), d.rekeyed, refusedRekeys)
  }

  method PushDeltaToEngine(engine0: set<NodeKey>, delta: Delta, refusedUps: set<nat>, refusedRekeys: set<nat>)
    returns (engine: set<NodeKey>)
    ensures engine == PushDelta(engine0, delta, refusedUps, refusedRekeys)
  {
    engine := engine0;
    for i := 0 to |delta.upserted|
      invariant engine == EngineUpserts(engine0, delta.upserted[..i], refusedUps)
    {
      assert Init(delta.upserted[..i + 1]) == delta.upserted[..i];
      if i !in refusedUps {
        engine := engine + {delta.upserted[i].nodeKey};
      }
    }
    assert delta.upserted[..|delta.upserted|] == delta.upserted;
    ghost var upserted := engine;
    for i := 0 to |delta.removed|
      invariant engine == EngineRemovals(upserted, delta.removed[..i])
    {
      assert Init(delta.removed[..i + 1]) == delta.removed[..i];
      engine := engine - {delta.removed[i]};
    }
    assert delta.removed[..|delta.removed|] == delta.removed;
    ghost var removed := engine;
    for i := 0 to |delta.rekeyed|
      invariant engine == EngineRekeys(removed, delta.rekeyed[..i], refusedRekeys)
    {
      assert Init(delta.rekeyed[..i + 1]) == delta.rekeyed[..i];
      engine := engine - {delta.rekeyed[i].oldKey};
      if i !in refusedRekeys {
        engine := engine + {delta.rekeyed[i].snapshot.nodeKey};
      }
    }
    assert delta.rekeyed[..|delta.rekeyed|] == delta.rekeyed;
  }

  lemma {:induction false} UpsertsWithin(e: set<NodeKey>, r: Regions, ups: seq<PeerSnapshot>, refused: set<nat>,
                                         ourHome: nat)
    requires e <= r.Keys
    ensures EngineUpserts(e, ups, refused) <= ReplayUpserts(r, ups, ourHome).Keys
    ensures e == r.Keys && refused == {} ==> EngineUpserts(e, ups, refused) == ReplayUpserts(r, ups, ourHome).Keys
  {
    if ups != [] {
      UpsertsWithin(e, r, Init(ups), refused, ourHome);
    }
  }

  lemma {:induction false} RemovalsWithin(e: set<NodeKey>, r: Regions, removed: seq<NodeKey>)
    requires e <= r.Keys
    ensures EngineRemovals(e, removed) <= ReplayRemovals(r, removed).Keys
    ensures e == r.Keys ==> EngineRemovals(e, removed) == ReplayRemovals(r, removed).Keys
  {
    if removed != [] {
      RemovalsWithin(e, r, Init(removed));
    }
  }

  lemma {:induction false} RekeysWithin(e: set<NodeKey>, r: Regions, rekeyed: seq<RekeyedPeer>, refused: set<nat>,
                                        ourHome: nat)
    requires e <= r.Keys
    ensures EngineRekeys(e, rekeyed, refused) <= ReplayRekeys(r, rekeyed, ourHome).Keys
    ensures e == r.Keys && refused == {} ==> EngineRekeys(e, rekeyed, refused) == ReplayRekeys(r, rekeyed, ourHome).Keys
  {
    if rekeyed != [] {
      RekeysWithin(e, r, Init(rekeyed), refused, ourHome);
    }
  }

  /** The engine never gains a peer the region table does not list, and matches it when it refuses nothing. */
  lemma EngineWithinRegions(e: set<NodeKey>, r: Regions, d: Delta, refusedUps: set<nat>, refusedRekeys: set<nat>,
                            ourHome: nat)
    requires e <= r.Keys
    ensures PushDelta(e, d, refusedUps, refusedRekeys) <= Replay(r, d, ourHome).Keys
    ensures e == r.Keys && refusedUps == {} && refusedRekeys == {} ==>
              PushDelta(e, d, refusedUps, refusedRekeys) == Replay(r, d, ourHome).Keys
  {
    UpsertsWithin(e, r, d.upserted, refusedUps, ourHome);
    var e1, r1 := EngineUpserts(e, d.upserted, refusedUps), ReplayUpserts(r, d.upserted, ourHome);
    RemovalsWithin(e1, r1, d.removed);
    RekeysWithin(EngineRemovals(e1, d.removed), ReplayRemovals(r1, d.removed), d.rekeyed, refusedRekeys, ourHome);
  }

  lemma {:induction false} KeptByRemovals(e: set<NodeKey>, removed: seq<NodeKey>, k: NodeKey)
    ensures k in EngineRemovals(e, removed) <==> k in e && k !in removed
  {
    if removed != [] {
      KeptByRemovals(e, Init(removed), k);
    }
  }

  lemma {:induction false} KeptByUpserts(e: set<NodeKey>, ups: seq<PeerSnapshot>, refused: set<nat>, k: NodeKey)
    ensures k in EngineUpserts(e, ups, refused) <==>
            k in e || exists i | 0 <= i < |ups| && i !in refused :: ups[i].nodeKey == k
  {
    if ups != [] {
      KeptByUpserts(e, Init(ups), refused, k);
      assert forall i | 0 <= i < |ups| - 1 :: Init(ups)[i] == ups[i];
    }
  }

  lemma {:induction false} KeptByRekeys(e: set<NodeKey>, rekeyed: seq<RekeyedPeer>, refused: set<nat>, k: NodeKey)
    requires k in e && forall m | m in rekeyed :: m.oldKey != k
    ensures k in EngineRekeys(e, rekeyed, refused)
  {
    if rekeyed != [] {
      assert Last(rekeyed) in rekeyed && forall m | m in Init(rekeyed) :: m in rekeyed;
      KeptByRekeys(e, Init(rekeyed), refused, k);
    }
  }

  /**
  Whatever the engine refuses, it keeps a peer that the delta neither removes nor
  moves away, and takes in each one upserted and not refused.
  */
  lemma EngineKeeps(e: set<NodeKey>, d: Delta, refusedUps: set<nat>, refusedRekeys: set<nat>, k: NodeKey)
    requires k !in d.removed && forall m | m in d.rekeyed :: m.oldKey != k
    requires k in e || exists i | 0 <= i < |d.upserted| && i !in refusedUps :: d.upserted[i].nodeKey == k
    ensures k in PushDelta(e, d, refusedUps, refusedRekeys)
  {
    KeptByUpserts(e, d.upserted, refusedUps, k);
    KeptByRemovals(EngineUpserts(e, d.upserted, refusedUps), d.removed, k);
    KeptByRekeys(EngineRemovals(EngineUpserts(e, d.upserted, refusedUps), d.removed), d.rekeyed, refusedRekeys, k);
  }

  /** A peer that was removed, and not moved back, is not in the engine. */
  lemma EngineDrops(e: set<NodeKey>, d: Delta, refusedUps: set<nat>, refusedRekeys: set<nat>, k: NodeKey)
    requires k in d.removed && forall m | m in d.rekeyed :: m.snapshot.nodeKey != k
    ensures k !in PushDelta(e, d, refusedUps, refusedRekeys)
  {
    KeptByRemovals(EngineUpserts(e, d.upserted, refusedUps), d.removed, k);
    NotMovedIn(EngineRemovals(EngineUpserts(e, d.upserted, refusedUps), d.removed), d.rekeyed, refusedRekeys, k);
  }

  lemma {:induction false} NotMovedIn(e: set<NodeKey>, rekeyed: seq<RekeyedPeer>, refused: set<nat>, k: NodeKey)
    requires k !in e && forall m | m in rekeyed :: m.snapshot.nodeKey != k
    ensures k !in EngineRekeys(e, rekeyed, refused)
  {
    if rekeyed != [] {
      assert Last(rekeyed) in rekeyed && forall m | m in Init(rekeyed) :: m in rekeyed;
      NotMovedIn(e, Init(rekeyed), refused, k);
    }
  }

  // ---------- our own home region ----------

  /**
  The last upsert of a key that nothing later removes or moves lists it: under its home, or
  under ours if it has none.
  */
  lemma UpsertListsUnderHome(r: Regions, d: Delta, ourHome: nat, i: nat)
    requires i < |d.upserted| && forall j | i < j < |d.upserted| :: d.upserted[j].nodeKey != d.upserted[i].nodeKey
    requires d.upserted[i].nodeKey !in d.removed
    requires forall m | m in d.rekeyed ::
               m.oldKey != d.upserted[i].nodeKey && m.snapshot.nodeKey != d.upserted[i].nodeKey
    ensures var p, r' := d.upserted[i], Replay(r, d, ourHome);
            && p.nodeKey in r'
            && (p.homeDerp != 0 ==> r'[p.nodeKey] == p.homeDerp)
            && (p.homeDerp == 0 ==> r'[p.nodeKey] == ourHome)
  {
    var k := d.upserted[i].nodeKey;
    LatestIs(d.upserted, i);
    UntouchedBy(d.rekeyed, k);
    ReplayAt(r, d, ourHome, k);
  }

  lemma {:induction false} LatestIs(ups: seq<PeerSnapshot>, i: nat)
    requires i < |ups| && forall j | i < j < |ups| :: ups[j].nodeKey != ups[i].nodeKey
    ensures Latest(ups, ups[i].nodeKey) == Some(ups[i])
  {
    if i < |ups| - 1 {
      assert forall j | 0 <= j < |ups| - 1 :: Init(ups)[j] == ups[j];
      LatestIs(Init(ups), i);
    }
  }

  lemma {:induction false} UntouchedBy(rekeyed: seq<RekeyedPeer>, k: NodeKey)
    requires forall m | m in rekeyed :: m.oldKey != k && m.snapshot.nodeKey != k
    ensures TraceOf(rekeyed, k).Untouched?
  {
    if rekeyed != [] {
      assert Last(rekeyed) in rekeyed && forall m | m in Init(rekeyed) :: m in rekeyed;
      UntouchedBy(Init(rekeyed), k);
    }
  }

  /** So does the last rekey to a key, if it is the last of all; and the key it left is not listed any more. */
  lemma RekeyListsUnderHome(r: Regions, d: Delta, ourHome: nat)
    requires d.rekeyed != []
    ensures var m, r' := Last(d.rekeyed), Replay(r, d, ourHome);
            && m.snapshot.nodeKey in r'
            && (m.snapshot.homeDerp != 0 ==> r'[m.snapshot.nodeKey] == m.snapshot.homeDerp)
            && (m.snapshot.homeDerp == 0 ==> r'[m.snapshot.nodeKey] == ourHome)
            && (m.oldKey != m.snapshot.nodeKey ==> m.oldKey !in r')
  {
    ReplayAt(r, d, ourHome, Last(d.rekeyed).snapshot.nodeKey);
    ReplayAt(r, d, ourHome, Last(d.rekeyed).oldKey);
  }
}
