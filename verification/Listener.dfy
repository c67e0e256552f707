/**
The socket pool of an in-tunnel TCP listener.

The pool holds handles into a socket set that other threads use as well: the
poll thread changes socket states, streams are dropped, other sockets are
opened. They run whenever the listener does not hold the socket-set lock, which
an accept pass takes three times. The environment decides what they do there.
*/
module Listener {
  import opened Common

  type Handle = nat

  datatype TcpState =
    | Closed | Listen | SynSent | SynReceived | Established
    | FinWait1 | FinWait2 | CloseWait | Closing | LastAck | TimeWait

  /** A slot worth keeping: ready, in handshake, or ready to be claimed. */
  predicate Alive(st: TcpState) {
    st == Listen || st == Established || st == SynReceived
  }

  // ---------- the shared socket set ----------

  /** What other threads may do: dropping a stream takes two separate steps. */
  datatype Foreign =
    | ChangeState(h: Handle, st: TcpState)
    | Unregister(h: Handle)
    | Remove(h: Handle)
    | Open(st: TcpState)

  /** The sockets and which of them belong to others. */
  datatype Table = Table(sockets: map<Handle, TcpState>, foreign: set<Handle>)

  /** The least handle from `h` on that is free; handles of removed sockets come back. */
  function FreeFrom(sockets: map<Handle, TcpState>, h: Handle, above: set<Handle>): (free: Handle)
    requires forall k | k in sockets :: k >= h ==> k in above
    ensures free !in sockets && forall k | h <= k < free :: k in sockets
    decreases above
  {
    if h in sockets then FreeFrom(sockets, h + 1, above - {h}) else h
  }

  function Free(sockets: map<Handle, TcpState>): (free: Handle)
    ensures free !in sockets && forall k | 0 <= k < free :: k in sockets
  {
    FreeFrom(sockets, 0, sockets.Keys)
  }

  /** What one step of another thread does. It never touches a handle that is not its own, except for its state. */
  function Disturbed(t: Table, e: Foreign): Table {
    match e
    case ChangeState(h, st) => if h in t.sockets then t.(sockets := t.sockets[h := st]) else t
    case Unregister(_) => t
    case Remove(h) => if h in t.foreign then Table(t.sockets - {h}, t.foreign - {h}) else t
    case Open(st) => Table(t.sockets[Free(t.sockets) := st], t.foreign + {Free(t.sockets)})
  }

  function After(t: Table, events: seq<Foreign>): Table {
    if events == [] then t else Disturbed(After(t, Init(events)), Last(events))
  }

  class Stack {
    var sockets: map<Handle, TcpState>
    var registered: set<Handle>
    /** Handles owned by streams and by other listeners. */
    var foreign: set<Handle>

    constructor ()
      ensures sockets == map[] && registered == {} && foreign == {}
    {
      sockets, registered, foreign := map[], {}, {};
    }

    ghost function Value(): Table
      reads this
    {
      Table(sockets, foreign)
    }

    /** Look for a free handle from the bottom up. */
    method FreeHandle() returns (h: Handle)
      ensures h == Free(sockets)
    {
      h := 0;
      ghost var above := sockets.Keys;
      while h in sockets
        invariant forall k | k in sockets :: k >= h ==> k in above
        invariant Free(sockets) == FreeFrom(sockets, h, above)
        decreases above
      {
        above := above - {h};
        h := h + 1;
      }
    }

    /** Allocate a listening socket and register it; refused exactly for port zero. */
    method AllocListening(port: nat) returns (r: Option<Handle>)
      modifies this
      ensures r.Some? <==> port != 0
      ensures r.None? ==> sockets == old(sockets) && registered == old(registered)
      ensures r.Some? ==>
                && r.value !in old(sockets)
                && sockets == old(sockets)[r.value := Listen]
                && registered == old(registered) + {r.value}
      ensures foreign == old(foreign)
    {
      if port == 0 {
        return None;
      }
      var h := FreeHandle();
      sockets := sockets[h := Listen];
      registered := registered + {h};
      return Some(h);
    }

    /** Take a socket out of the registry and the set. */
    method Discard(h: Handle)
      requires h in sockets
      modifies this
      ensures sockets == old(sockets) - {h} && registered == old(registered) - {h} && foreign == old(foreign)
    {
      registered := registered - {h};
      sockets := sockets - {h};
    }

    /** Other threads run; what is the listener's stays present, registered and nobody else's. */
    method Interfere(events: seq<Foreign>, ghost mine: set<Handle>)
      requires mine <= sockets.Keys && mine <= registered && mine !! foreign && foreign <= sockets.Keys
      modifies this
      ensures mine <= sockets.Keys && mine <= registered && mine !! foreign && foreign <= sockets.Keys
      ensures sockets.Keys - foreign == old(sockets.Keys) - old(foreign)
      ensures Value() == After(old(Value()), events)
    {
      for i := 0 to |events|
        invariant mine <= sockets.Keys && mine <= registered && mine !! foreign && foreign <= sockets.Keys
        invariant sockets.Keys - foreign == old(sockets.Keys) - old(foreign)
        invariant Value() == After(old(Value()), events[..i])
      {
        InitOfTake(events, i);
        match events[i] {
          case ChangeState(h, st) =>
            if h in sockets {
              sockets := sockets[h := st];
            }
          case Unregister(h) =>
            if h in foreign {
              registered := registered - {h};
            }
          case Remove(h) =>
            if h in foreign {
              foreign := foreign - {h};
              sockets := sockets - {h};
            }
          case Open(st) =>
            var h := FreeHandle();
            sockets := sockets[h := st];
            registered := registered + {h};
            foreign := foreign + {h};
        }
      }
      TakeAll(events);
    }
  }

  // ---------- the pool ----------

  predicate Distinct(s: seq<Handle>) {
    forall i, j | 0 <= i < j < |s| :: s[i] != s[j]
  }

  ghost function HandlesOf(s: seq<Handle>): set<Handle> { set h | h in s }

  /** Replacing one handle of a pool by one that is not in it. */
  lemma ReplaceHandle(pool: seq<Handle>, i: nat, h: Handle)
    requires Distinct(pool) && i < |pool| && (h !in pool || h == pool[i])
    ensures Distinct(pool[i := h])
    ensures HandlesOf(pool[i := h]) == HandlesOf(pool) - {pool[i]} + {h}
  {
    var q := pool[i := h];
    assert q[i] == h;
    forall x ensures x in q <==> x in HandlesOf(pool) - {pool[i]} + {h} {
      if x in pool && x != pool[i] {
        var j :| 0 <= j < |pool| && pool[j] == x;
        assert q[j] == x;
      }
    }
  }

  /** What is left of a vector when one entry is taken out and the last one moved into its place. */
  function SwapRemoved(pool: seq<Handle>, i: nat): seq<Handle>
    requires i < |pool|
  {
    pool[i := pool[|pool| - 1]][..|pool| - 1]
  }

  lemma SwapRemove(pool: seq<Handle>, i: nat)
    requires Distinct(pool) && i < |pool|
    ensures Distinct(SwapRemoved(pool, i)) && |SwapRemoved(pool, i)| == |pool| - 1
    ensures HandlesOf(SwapRemoved(pool, i)) == HandlesOf(pool) - {pool[i]}
  {
    var q := SwapRemoved(pool, i);
    forall x ensures x in q <==> x in pool && x != pool[i] {
      if x in pool && x != pool[i] {
        var j :| 0 <= j < |pool| && pool[j] == x;
        assert if j == |pool| - 1 then q[i] == x else q[j] == x;
      }
      if x in q {
        var j :| 0 <= j < |q| && q[j] == x;
        assert x == if j == i then pool[|pool| - 1] else pool[j];
      }
    }
  }

  /** A pool and the table it lives in, at one moment. */
  datatype Snap = Snap(pool: seq<Handle>, table: Table)

  /**
  What one accept pass met: the pool and sockets after healing, the table at its scan, what it
  claimed and put in its place.
  */
  datatype Pass = Pass(healed: Snap, atScan: Table, claimed: Option<nat>, added: Handle)

  predicate ReadyIn(t: Table, h: Handle, hasPeer: set<Handle>) {
    h in t.sockets && t.sockets[h] == Established && h in hasPeer
  }

  /** Healing keeps live slots, puts a listening socket into each dead one, and touches nothing else. */
  ghost predicate Heals(was: Snap, now: Snap) {
    && |now.pool| == |was.pool| && now.table.foreign == was.table.foreign
    && (forall i | 0 <= i < |was.pool| :: was.pool[i] in was.table.sockets && now.pool[i] in now.table.sockets)
    && (forall i | 0 <= i < |was.pool| ::
          if was.table.sockets[was.pool[i]] in {Listen, SynReceived, Established}
          then now.pool[i] == was.pool[i] && now.table.sockets[now.pool[i]] == was.table.sockets[was.pool[i]]
          else now.table.sockets[now.pool[i]] == Listen)
    && now.table.sockets - HandlesOf(now.pool) == was.table.sockets - HandlesOf(was.pool)
  }

  /** The first ready slot of a pool, if any. */
  ghost predicate FirstReady(pool: seq<Handle>, t: Table, hasPeer: set<Handle>, found: Option<nat>) {
    match found
    case None => forall i | 0 <= i < |pool| :: !ReadyIn(t, pool[i], hasPeer)
    case Some(k) => k < |pool| && ReadyIn(t, pool[k], hasPeer) && forall i | 0 <= i < k :: !ReadyIn(t, pool[i], hasPeer)
  }

  /** Slot `k` leaves the pool for a stream, and a fresh listening socket comes in behind the rest. */
  ghost predicate Claims(was: Snap, k: nat, added: Handle, now: Snap) {
    && k < |was.pool| && added !in was.table.sockets
    && now == Snap(SwapRemoved(was.pool, k) + [added],
                   Table(was.table.sockets[added := Listen], was.table.foreign + {was.pool[k]}))
  }

  /**
  One accept pass with other threads at work in between: it heals the pool, looks
  at it after `env1`, and after `env2` claims the first slot that was ready then.
  */
  ghost predicate Accepted(was: Snap, env1: seq<Foreign>, env2: seq<Foreign>, hasPeer: set<Handle>, pass: Pass,
                           now: Snap) {
    && Heals(was, pass.healed)
    && pass.atScan == After(pass.healed.table, env1)
    && FirstReady(pass.healed.pool, pass.atScan, hasPeer, pass.claimed)
    && match pass.claimed
       case None => now == Snap(pass.healed.pool, pass.atScan)
       case Some(k) => Claims(Snap(pass.healed.pool, After(pass.atScan, env2)), k, pass.added, now)
  }

  /**
  Left alone, a pass claims the first slot that was ready when it began, if any was, and then
  every slot is alive.
  */
  lemma UndisturbedPass(was: Snap, hasPeer: set<Handle>, pass: Pass, now: Snap)
    requires Accepted(was, [], [], hasPeer, pass, now) && Distinct(was.pool)
    ensures FirstReady(was.pool, was.table, hasPeer, pass.claimed)
    ensures pass.claimed.Some? ==> pass.healed.pool[pass.claimed.value] == was.pool[pass.claimed.value]
    ensures forall i | 0 <= i < |now.pool| ::
              now.pool[i] in now.table.sockets
              && now.table.sockets[now.pool[i]] in {Listen, SynReceived, Established}
  {
    var healed := pass.healed;
    assert forall i | 0 <= i < |was.pool| :: Alive(healed.table.sockets[healed.pool[i]]);
    forall i | 0 <= i < |was.pool|
      ensures ReadyIn(healed.table, healed.pool[i], hasPeer) <==> ReadyIn(was.table, was.pool[i], hasPeer)
    {
    }
  }

  class TcpListener {
    const stack: Stack
    const port: nat
    const poolSize: nat
    var pool: seq<Handle>

    /** The pool is full; its handles are distinct, present, registered, and nobody else's. */
    ghost predicate Valid()
      reads this, stack
    {
      && port != 0
      && |pool| == poolSize
      && Distinct(pool)
      && HandlesOf(pool) <= stack.sockets.Keys
      && HandlesOf(pool) <= stack.registered
      && HandlesOf(pool) !! stack.foreign
      && stack.foreign <= stack.sockets.Keys
    }

    ghost function Now(): Snap
      reads this, stack
    {
      Snap(pool, stack.Value())
    }

    constructor (stack: Stack, port: nat, poolSize: nat)
      requires port != 0 && stack.foreign <= stack.sockets.Keys
      modifies stack
      ensures this.stack == stack && this.port == port && this.poolSize == if poolSize < 1 then 1 else poolSize
      ensures Valid() && forall i | 0 <= i < |pool| :: stack.sockets[pool[i]] == Listen
      ensures stack.foreign == old(stack.foreign)
      ensures stack.sockets.Keys == old(stack.sockets.Keys) + HandlesOf(pool)
      ensures HandlesOf(pool) !! old(stack.sockets.Keys)
    {
      var size := if poolSize < 1 then 1 else poolSize;
      this.stack, this.port, this.poolSize := stack, port, size;
      pool := [];
      new;
      for i := 0 to size
        invariant |pool| == i && Distinct(pool) && stack.foreign == old(stack.foreign)
        invariant HandlesOf(pool) <= stack.registered && HandlesOf(pool) !! old(stack.sockets.Keys)
        invariant stack.sockets.Keys == old(stack.sockets.Keys) + HandlesOf(pool)
        invariant forall j | 0 <= j < i :: pool[j] in stack.sockets && stack.sockets[pool[j]] == Listen
      {
        var got := stack.AllocListening(port);
        assert HandlesOf(pool + [got.value]) == HandlesOf(pool) + {got.value};
        pool := pool + [got.value];
      }
    }

    /**
    Re-arm dead slots. Live slots keep their socket, dead ones get a fresh
    listening one, nobody else's socket is touched and none is leaked.
    */
    method HealPool()
      requires Valid()
      modifies this, stack
      ensures Valid()
      ensures forall i | 0 <= i < |pool| :: stack.sockets[pool[i]] in {Listen, SynReceived, Established}
      ensures forall i | 0 <= i < |pool| ::
                if old(stack.sockets[pool[i]]) in {Listen, SynReceived, Established}
                then pool[i] == old(pool[i]) && stack.sockets[pool[i]] == old(stack.sockets[pool[i]])
                else stack.sockets[pool[i]] == Listen
      ensures stack.foreign == old(stack.foreign)
      ensures stack.sockets - HandlesOf(pool) == old(stack.sockets - HandlesOf(pool))
    {
      var i := 0;
      while i < |pool|
        invariant 0 <= i <= |pool| && Valid() && stack.foreign == old(stack.foreign)
        invariant stack.sockets - HandlesOf(pool) == old(stack.sockets - HandlesOf(pool))
        invariant forall j | i <= j < |pool| ::
                    pool[j] == old(pool[j]) && stack.sockets[pool[j]] == old(stack.sockets[pool[j]])
        invariant forall j | 0 <= j < i :: Alive(stack.sockets[pool[j]])
        invariant forall j | 0 <= j < i ::
                    if Alive(old(stack.sockets[pool[j]]))
                    then pool[j] == old(pool[j]) && stack.sockets[pool[j]] == old(stack.sockets[pool[j]])
                    else stack.sockets[pool[j]] == Listen
        decreases |pool| - i
      {
        assert pool[i] in HandlesOf(pool);
        if Alive(stack.sockets[pool[i]]) {
          i := i + 1;
          continue;
        }
        RelistenAt(i);
        i := i + 1;
      }
    }

    /** Replace the socket of one slot by a fresh listening one. */
    method RelistenAt(i: nat)
      requires Valid() && i < |pool|
      modifies this, stack
      ensures Valid() && stack.foreign == old(stack.foreign)
      ensures stack.sockets - HandlesOf(pool) == old(stack.sockets - HandlesOf(pool))
      ensures pool[i] in stack.sockets && stack.sockets[pool[i]] == Listen
      ensures forall j | 0 <= j < |pool| && j != i ::
                && pool[j] == old(pool[j]) && pool[j] in stack.sockets
                && stack.sockets[pool[j]] == old(stack.sockets[pool[j]])
    {
      assert forall j | 0 <= j < |pool| :: pool[j] in HandlesOf(pool);
      stack.Discard(pool[i]);
      var r := stack.AllocListening(port);
      assert r.value in pool ==> r.value == pool[i];
      ReplaceHandle(pool, i, r.value);
      assert r.value !in old(stack.sockets) || r.value == old(pool[i]);
      pool := pool[i := r.value];
    }

    /** Sockets that neither the pool nor anybody else owns. */
    ghost function Unowned(): set<Handle>
      reads this, stack
    {
      stack.sockets.Keys - stack.foreign - HandlesOf(pool)
    }

    /** The first slot that is established and whose remote end is known. */
    method FindEstablished(hasPeer: set<Handle>) returns (found: Option<nat>)
      requires Valid()
      ensures found.Some? ==> found.value < |pool| && Ready(found.value, hasPeer)
      ensures found.Some? ==> forall i | 0 <= i < found.value :: !Ready(i, hasPeer)
      ensures found.None? ==> forall i | 0 <= i < |pool| :: !Ready(i, hasPeer)
    {
      for i := 0 to |pool|
        invariant forall j | 0 <= j < i :: !Ready(j, hasPeer)
      {
        assert pool[i] in HandlesOf(pool);
        if stack.sockets[pool[i]] == Established && pool[i] in hasPeer {
          return Some(i);
        }
      }
      return None;
    }

    ghost predicate Ready(i: nat, hasPeer: set<Handle>)
      reads this, stack
    {
      i < |pool| && pool[i] in stack.sockets && stack.sockets[pool[i]] == Established && pool[i] in hasPeer
    }

    method HealAndScan(env: seq<Foreign>, hasPeer: set<Handle>) returns (found: Option<nat>, pass: Pass)
      requires Valid()
      modifies this, stack
      ensures Valid() && Unowned() == old(Unowned())
      ensures Heals(old(Now()), pass.healed) && pass.atScan == After(pass.healed.table, env)
      ensures Now() == Snap(pass.healed.pool, pass.atScan)
      ensures FirstReady(pool, pass.atScan, hasPeer, found) && pass.claimed == found
    {
      assert forall i | 0 <= i < |pool| :: pool[i] in HandlesOf(pool);
      HealPool();
      assert forall i | 0 <= i < |pool| :: pool[i] in HandlesOf(pool);
      pass := Pass(Snap(pool, Table(stack.sockets, stack.foreign)), Table(stack.sockets, stack.foreign), None, 0);
      assert Unowned() == (stack.sockets - HandlesOf(pool)).Keys - stack.foreign;
      assert Unowned() == old(Unowned()) by {
        assert old(Unowned()) == old((stack.sockets - HandlesOf(pool)).Keys - stack.foreign);
      }
      stack.Interfere(env, HandlesOf(pool));
      assert Unowned() == old(Unowned());
      pass := pass.(atScan := Table(stack.sockets, stack.foreign));
      found := FindEstablished(hasPeer);
      pass := pass.(claimed := found);
      assert forall i | 0 <= i < |pool| :: ReadyIn(pass.atScan, pool[i], hasPeer) <==> Ready(i, hasPeer);
    }

    /**
    One accept pass, with other threads running between its critical sections.
    The pool is healed first; the first slot ready at the scan leaves the pool
    for good and a fresh one takes its place, and nothing is claimed exactly
    when no slot was ready.
    */
    method TryClaim(env1: seq<Foreign>, env2: seq<Foreign>, hasPeer: set<Handle>)
      returns (claimed: Option<Handle>, pass: Pass)
      requires Valid()
      modifies this, stack
      ensures Valid() && Unowned() == old(Unowned())
      ensures Accepted(old(Now()), env1, env2, hasPeer, pass, Now())
      ensures claimed.Some? <==> pass.claimed.Some?
      ensures claimed.Some? ==>
                && claimed.value == pass.healed.pool[pass.claimed.value] && claimed.value !in pool
                && claimed.value in stack.foreign
    {
      var found;
      found, pass := HealAndScan(env1, hasPeer);
      if found.None? {
        return None, pass;
      }
      stack.Interfere(env2, HandlesOf(pool));
      var h, added := ClaimAt(found.value);
      return Some(h), pass.(added := added);
    }

    /** Take one slot out of the pool, hand its socket on, and put a fresh listening one behind the rest. */
    method ClaimAt(idx: nat) returns (h: Handle, added: Handle)
      requires Valid() && idx < |pool|
      modifies this, stack
      ensures Valid() && h == old(pool)[idx] && h !in pool && h in stack.foreign
      ensures Claims(old(Now()), idx, added, Now())
      ensures Unowned() == old(Unowned())
    {
      h := pool[idx];
      assert h in HandlesOf(pool);
      SwapRemove(pool, idx);
      var kept := SwapRemoved(pool, idx);
      var r := stack.AllocListening(port);
      added := r.value;
      assert added !in HandlesOf(pool) && HandlesOf(kept + [added]) == HandlesOf(kept) + {added};
      assert forall i | 0 <= i < |kept| :: kept[i] in HandlesOf(kept);
      pool := kept + [added];
      stack.foreign := stack.foreign + {h};
      assert h !in HandlesOf(pool);
    }

    /** Dropping the listener returns exactly its own sockets. */
    method Drop()
      requires Valid()
      modifies this, stack
      ensures pool == [] && stack.foreign == old(stack.foreign)
      ensures stack.sockets == old(stack.sockets - HandlesOf(pool))
      ensures stack.registered == old(stack.registered - HandlesOf(pool))
    {
      var entries := pool;
      pool := [];
      for i := 0 to |entries|
        invariant pool == [] && stack.foreign == old(stack.foreign)
        invariant stack.sockets == old(stack.sockets) - HandlesOf(entries[..i])
        invariant stack.registered == old(stack.registered) - HandlesOf(entries[..i])
      {
        assert entries[i] in HandlesOf(entries);
        assert entries[..i + 1] == entries[..i] + [entries[i]];
        assert HandlesOf(entries[..i + 1]) == HandlesOf(entries[..i]) + {entries[i]};
        stack.Discard(entries[i]);
      }
      assert entries[..|entries|] == entries;
    }
  }

  // ---------- every run ----------

  /** Other threads run, or the listener makes one accept pass. */
  datatype Move = Others(events: seq<Foreign>) | Accept(env1: seq<Foreign>, env2: seq<Foreign>, hasPeer: set<Handle>)

  /** What one move does, with the pass it made if it was an accept. */
  ghost predicate Moved(was: Snap, m: Move, pass: Option<Pass>, now: Snap) {
    match m
    case Others(events) => pass.None? && now == Snap(was.pool, After(was.table, events))
    case Accept(env1, env2, hasPeer) => pass.Some? && Accepted(was, env1, env2, hasPeer, pass.value, now)
  }

  /** The moments of a run from `first` to `last`, each move leading from one to the next. */
  ghost predicate Explains(first: Snap, moves: seq<Move>, passes: seq<Option<Pass>>, trace: seq<Snap>, last: Snap) {
    && |passes| == |moves| && |trace| == |moves| + 1 && trace[0] == first && Last(trace) == last
    && forall i | 0 <= i < |moves| :: Moved(trace[i], moves[i], passes[i], trace[i + 1])
  }

  /** Binding succeeds on every port but zero, and leaves the stack alone otherwise. */
  method Bind(stack: Stack, port: nat, size: nat) returns (l: TcpListener?)
    requires stack.foreign <= stack.sockets.Keys
    modifies stack
    ensures l == null <==> port == 0
    ensures l == null ==> stack.sockets == old(stack.sockets) && stack.registered == old(stack.registered)
    ensures l != null ==>
              && l.stack == stack && l.Valid() && l.poolSize == (if size < 1 then 1 else size)
              && l.Unowned() == old(stack.sockets.Keys - stack.foreign)
  {
    if port == 0 {
      return null;
    }
    l := new TcpListener(stack, port, size);
    assert l.Unowned() == old(stack.sockets.Keys - stack.foreign);
  }

  /**
  Anything may happen to a bound listener: other threads change sockets and drop
  streams, accept passes run in between. The pool stays whole, no socket is
  leaked, and from the first moment to the last every move, every accept pass
  among them, did what it should to the pool and the sockets.
  */
  method Serve(l: TcpListener, moves: seq<Move>) returns (passes: seq<Option<Pass>>, trace: seq<Snap>)
    requires l.Valid()
    modifies l, l.stack
    ensures l.Valid() && l.Unowned() == old(l.Unowned())
    ensures Explains(old(l.Now()), moves, passes, trace, l.Now())
  {
    passes, trace := [], [Snap(l.pool, Table(l.stack.sockets, l.stack.foreign))];
    for i := 0 to |moves|
      invariant l.Valid() && l.Unowned() == old(l.Unowned())
      invariant |passes| == i && |trace| == i + 1 && trace[0] == old(l.Now()) && Last(trace) == l.Now()
      invariant forall j | 0 <= j < i :: Moved(trace[j], moves[j], passes[j], trace[j + 1])
    {
      var made: Option<Pass> := None;
      match moves[i] {
        case Others(events) =>
          l.stack.Interfere(events, HandlesOf(l.pool));
        case Accept(env1, env2, hasPeer) =>
          var claimed, pass := l.TryClaim(env1, env2, hasPeer);
          made := Some(pass);
      }
      ghost var before := trace;
      passes := passes + [made];
      trace := trace + [Snap(l.pool, Table(l.stack.sockets, l.stack.foreign))];
      assert forall j | 0 <= j <= i :: trace[j] == before[j];
    }
  }
}
