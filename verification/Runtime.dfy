/**
The runtime's event loop, as a machine driven by an arbitrary environment.

One `Iteration` carries everything the environment decides in one pass of the
loop: the signals that were queued, the replies of the control plane, the next
map event, the clock. `Step` is the meaning of one pass; class `Runtime` runs
it on fields. A run is any sequence of passes and supervised restarts.
*/
module Runtime {
  import opened Common
  import opened NetMap
  import opened NetMapIndex
  import opened Replicas
  import opened Lifecycle

  datatype Signal = ForceReconnect | SetWantRunning(desired: bool) | Logout | LoginInteractive

  datatype ErrorClass = Transient | AuthFatal | SecurityFatal

  /** `rotated` is the fresh node key, or `None` when storing it failed. */
  datatype LogoutReply = LogoutFailed | LogoutOk(rotated: Option<NodeKey>)

  datatype BootstrapReply = NewSession | LoginRequired | BootstrapError(kind: ErrorClass)

  datatype EventReply =
    | EventError(kind: ErrorClass)
    | Snapshot(frame: MapResponse, order: seq<NodeKey>, refusedUps: set<nat>, refusedRekeys: set<nat>)
    | KeepAlive
    | Idle

  datatype Iteration = Iteration(
    stopAtTop: bool,
    signals: seq<Signal>,
    logout: LogoutReply,
    stopAsleep: bool,
    bootstrap: BootstrapReply,
    event: EventReply,
    now: nat,
    derpAlive: bool,
    ourHome: nat)

  datatype Exit = ExitStopped | NeedsRelogin | Failed

  /** A live map session: the node key it was opened with, and its own peer table. */
  datatype Session = Session(key: NodeKey, netmap: Table)

  /**
  `nodeKey` is the key in the key store. `builtKey` is the one the engine and
  the DERP transport were built with; they cannot be rekeyed in place.
  */
  datatype State = State(
    wantRunning: bool,
    session: Option<Session>,
    tracker: Tracker,
    nodeKey: NodeKey,
    builtKey: NodeKey,
    engine: set<NodeKey>,
    regions: Regions,
    exit: Option<Exit>)

  // ---------- one pass of the loop ----------

  datatype Drained = Drained(state: State, logout: bool, login: bool)

  /** Drop every peer the region table lists from the engine, and empty the table. */
  function ClearEngine(s: State): State {
    s.(engine := s.engine - s.regions.Keys, regions := map[])
  }

  function OnSignal(d: Drained, sig: Signal, fatal: bool): Drained {
    if fatal then d
    else
      match sig
      case ForceReconnect => d.(state := d.state.(session := None))
      case SetWantRunning(desired) =>
        if desired && !d.state.wantRunning then
          d.(state := d.state.(wantRunning := true, tracker := ClearStopped(d.state.tracker), session := None))
        else if !desired && d.state.wantRunning then
          d.(state := ClearEngine(d.state).(wantRunning := false, session := None,
                                            tracker := SetStopped(d.state.tracker)))
        else d
      case Logout => d.(logout := true)
      case LoginInteractive => d.(login := true)
  }

  function Drain(s: State, signals: seq<Signal>, fatal: bool): Drained {
    if signals == [] then Drained(s, false, false)
    else OnSignal(Drain(s, Init(signals), fatal), Last(signals), fatal)
  }

  function PerformLogout(s: State, reply: LogoutReply): State {
    match reply
    case LogoutFailed => s
    case LogoutOk(rotated) =>
      ClearEngine(s).(session := None,
      nodeKey := if rotated.Some? then rotated.value else s.nodeKey,
      tracker := SetNeedsLogin(s.tracker))
  }

  function FatalExit(s: State, c: ErrorClass): State
    requires c != Transient
  {
    s.(tracker := MarkFatal(s.tracker, if c == AuthFatal then Auth else Security), exit := Some(Failed))
  }

  /** A map event arrives on a live session; the tail of the pass ticks the tracker. */
  function OnEvent(s: State, it: Iteration): State
    requires s.session.Some?
  {
    match it.event
    case EventError(c) =>
      if c == Transient then s.(tracker := RecordControlReconnect(s.tracker), session := None)
      else FatalExit(s, c)
    case Snapshot(f, order, refusedUps, refusedRekeys) =>
      var v := ApplyFrame(s.session.value.netmap, f, order);
      EndOfPass(
        s.(session := Some(s.session.value.(netmap := v.table)),
        tracker := RecordMapEvent(s.tracker, it.now),
        engine := PushDelta(s.engine, v.delta, refusedUps, refusedRekeys),
        regions := Replay(s.regions, v.delta, it.ourHome)),
        it)
    case KeepAlive => EndOfPass(s.(tracker := RecordMapEvent(s.tracker, it.now)), it)
    case Idle => EndOfPass(s, it)
  }

  function EndOfPass(s: State, it: Iteration): State {
    var t := if it.derpAlive then RecordDerpRx(s.tracker, it.now) else s.tracker;
    s.(tracker := Tick(t, it.now))
  }

  /** Running, with or without a session. */
  function Connected(s: State, it: Iteration): State {
    if s.session.None? && s.tracker.state != NeedsLogin then
      if it.stopAsleep then s.(exit := Some(ExitStopped))
      else
        match it.bootstrap
        case NewSession => OnEvent(s.(session := Some(Session(s.nodeKey, EMPTY_TABLE))), it)
        case LoginRequired => s.(exit := Some(NeedsRelogin))
        case BootstrapError(c) => if c == Transient then s else FatalExit(s, c)
    else if s.session.None? then
      if it.stopAsleep then s.(exit := Some(ExitStopped)) else s
    else OnEvent(s, it)
  }

  function Step(s: State, it: Iteration): State {
    if s.exit.Some? then s
    else if it.stopAtTop then s.(exit := Some(ExitStopped))
    else
      var d := Drain(s, it.signals, Fatal(s.tracker.state));
      if d.login && d.state.wantRunning then d.state.(exit := Some(NeedsRelogin))
      else if d.logout then PerformLogout(d.state, it.logout).(wantRunning := true)
      else if !d.state.wantRunning then
        d.state.(tracker := SetStopped(d.state.tracker), exit := if it.stopAsleep then Some(ExitStopped) else None)
      else Connected(d.state, it)
  }

  // ---------- bringing the runtime up ----------

  datatype LoginResult = Authorized | Parked | LoggedOut | Shutdown

  /** What `up` meets: whether it wants to run, how login ends, and the key in the store by then. */
  datatype Boot = Boot(wantRunning: bool, login: LoginResult, key: NodeKey)

  function Up(b: Boot): State {
    var base := State(b.wantRunning, None, NEW_TRACKER, b.key, b.key, {}, map[], None);
    if !b.wantRunning then base.(tracker := SetStopped(base.tracker))
    else
      match b.login
      case Authorized => base.(session := Some(Session(b.key, EMPTY_TABLE)))
      case Parked => base.(wantRunning := false, tracker := SetStopped(base.tracker))
      case LoggedOut => base.(tracker := SetNeedsLogin(base.tracker))
      case Shutdown => base.(tracker := SetStopped(base.tracker))
  }

  /**
  Coming up: a session on the stored key exactly after an authorized login, the
  login wait after a logout, and stopped if not wanted, parked or shut down.
  */
  lemma UpShows(b: Boot)
    ensures var s := Up(b);
            && (s.session.Some? <==> b.wantRunning && b.login.Authorized?)
            && (s.session.Some? ==> s.session.value.key == b.key && s.session.value.netmap.peers == map[])
            && (s.wantRunning <==> b.wantRunning && !b.login.Parked?)
            && (s.tracker.state == NeedsLogin <==> b.wantRunning && b.login.LoggedOut?)
            && (s.tracker.state == Stopped <==> !b.wantRunning || b.login.Parked? || b.login.Shutdown?)
            && s.nodeKey == s.builtKey == b.key && s.engine == {} && s.regions == map[] && s.exit.None?
  {
  }

  /** One pass of the loop, or the supervisor rebuilding the runtime after a login request. */
  datatype Move = Pass(it: Iteration) | Restart(login: LoginResult, key: NodeKey)

  function Next(s: State, m: Move): State {
    match m
    case Pass(it) => Step(s, it)
    case Restart(login, key) => if s.exit == Some(NeedsRelogin) then Up(Boot(true, login, key)) else s
  }

  function Run(boot: Boot, moves: seq<Move>): State {
    if moves == [] then Up(boot) else Next(Run(boot, Init(moves)), Last(moves))
  }

  // ---------- what every run keeps ----------

  /** The data plane never outlives the control session that feeds it. */
  ghost predicate Contained(s: State) {
    && s.engine <= s.regions.Keys
    && (!s.wantRunning ==> s.session.None? && s.engine == {} && s.regions == map[])
  }

  lemma {:induction false} DrainContained(s: State, signals: seq<Signal>, fatal: bool)
    requires Contained(s)
    ensures Contained(Drain(s, signals, fatal).state)
    ensures Drain(s, signals, fatal).state.exit == s.exit
  {
    if signals != [] {
      DrainContained(s, Init(signals), fatal);
    }
  }

  lemma OnEventContained(s: State, it: Iteration)
    requires Contained(s) && s.session.Some?
    ensures Contained(OnEvent(s, it))
  {
    if it.event.Snapshot? {
      var d := ApplyFrame(s.session.value.netmap, it.event.frame, it.event.order).delta;
      EngineWithinRegions(s.engine, s.regions, d, it.event.refusedUps, it.event.refusedRekeys, it.ourHome);
    }
  }

  lemma StepContained(s: State, it: Iteration)
    requires Contained(s)
    ensures Contained(Step(s, it))
  {
    if s.exit.None? && !it.stopAtTop {
      DrainContained(s, it.signals, Fatal(s.tracker.state));
      var d := Drain(s, it.signals, Fatal(s.tracker.state));
      if d.state.wantRunning && d.state.session.Some? {
        OnEventContained(d.state, it);
      } else if d.state.wantRunning {
        OnEventContained(d.state.(session := Some(Session(d.state.nodeKey, EMPTY_TABLE))), it);
      }
    }
  }

  /** At every point of every run the engine's peers are listed, and a parked runtime holds no session and no peer. */
  lemma {:induction false} EveryRunContained(boot: Boot, moves: seq<Move>)
    ensures Contained(Run(boot, moves))
  {
    if moves != [] {
      EveryRunContained(boot, Init(moves));
      if Last(moves).Pass? {
        StepContained(Run(boot, Init(moves)), Last(moves).it);
      }
    }
  }

  // ---------- the session's table against the region table ----------

  /** A live session's peers are listed. */
  ghost predicate SessionListed(s: State) {
    s.session.Some? ==>
      Keyed(s.session.value.netmap) && s.session.value.netmap.peers.Keys <= s.regions.Keys
  }

  /** Each of them with its own home region. */
  ghost predicate HomesRight(s: State) {
    s.session.Some? ==> RegionsRight(s.session.value.netmap, s.regions)
  }

  /** The table a snapshot of this pass would be merged into. */
  function TableAtEvent(s: State, it: Iteration): Table {
    var d := Drain(s, it.signals, Fatal(s.tracker.state)).state;
    if d.session.Some? then d.session.value.netmap else EMPTY_TABLE
  }

  /** A frame that carries one full list at most. */
  ghost predicate OneListFor(t: Table, e: EventReply) {
    e.Snapshot? ==>
      Enumerates(e.order, t.peers.Keys) && (e.frame.peers.None? || e.frame.peersChanged.None?)
  }

  /** A frame that patches no entry it rekeyed. */
  ghost predicate RekeysLastFor(t: Table, e: EventReply) {
    e.Snapshot? ==>
      NoPatchAfterRekey(AfterRemovals(t, e.frame, e.order), ListOf(e.frame.peersChangedPatch))
  }

  ghost predicate OneListFrames(boot: Boot, moves: seq<Move>) {
    moves == [] ||
    (&& OneListFrames(boot, Init(moves))
     && (Last(moves).Pass? ==>
           OneListFor(TableAtEvent(Run(boot, Init(moves)), Last(moves).it), Last(moves).it.event)))
  }

  ghost predicate RekeysLastFrames(boot: Boot, moves: seq<Move>) {
    moves == [] ||
    (&& RekeysLastFrames(boot, Init(moves))
     && (Last(moves).Pass? ==>
           RekeysLastFor(TableAtEvent(Run(boot, Init(moves)), Last(moves).it), Last(moves).it.event)))
  }

  lemma {:induction false} DrainListed(s: State, signals: seq<Signal>, fatal: bool)
    ensures var d := Drain(s, signals, fatal).state;
            d.session.None? || (d.session == s.session && d.regions == s.regions)
  {
    if signals != [] {
      DrainListed(s, Init(signals), fatal);
    }
  }

  lemma OnEventListed(s: State, it: Iteration)
    requires s.session.Some? && SessionListed(s) && OneListFor(s.session.value.netmap, it.event)
    ensures SessionListed(OnEvent(s, it))
    ensures HomesRight(s) && RekeysLastFor(s.session.value.netmap, it.event) ==> HomesRight(OnEvent(s, it))
  {
    if it.event.Snapshot? {
      FrameKeepsReplica(s.session.value.netmap, s.regions, it.event.frame, it.event.order, it.ourHome);
    }
  }

  lemma ConnectedListed(s: State, it: Iteration)
    requires SessionListed(s)
    requires OneListFor(if s.session.Some? then s.session.value.netmap else EMPTY_TABLE, it.event)
    ensures SessionListed(Connected(s, it))
    ensures HomesRight(s) && RekeysLastFor(if s.session.Some? then s.session.value.netmap else EMPTY_TABLE, it.event)
            ==> HomesRight(Connected(s, it))
  {
    if s.session.Some? {
      OnEventListed(s, it);
    } else {
      OnEventListed(s.(session := Some(Session(s.nodeKey, EMPTY_TABLE))), it);
    }
  }

  lemma StepListed(s: State, it: Iteration)
    requires SessionListed(s) && OneListFor(TableAtEvent(s, it), it.event)
    ensures SessionListed(Step(s, it))
    ensures HomesRight(s) && RekeysLastFor(TableAtEvent(s, it), it.event) ==> HomesRight(Step(s, it))
  {
    if s.exit.None? && !it.stopAtTop {
      DrainListed(s, it.signals, Fatal(s.tracker.state));
      ConnectedListed(Drain(s, it.signals, Fatal(s.tracker.state)).state, it);
    }
  }

  /**
  Over every run whose frames carry one full list at most, with any reconnects, parks and
  restarts, each session's peers stay listed; and with their home regions, if besides no frame
  patches an entry it rekeyed.
  */
  lemma {:induction false} EveryRunListed(boot: Boot, moves: seq<Move>)
    requires OneListFrames(boot, moves)
    ensures SessionListed(Run(boot, moves))
    ensures RekeysLastFrames(boot, moves) ==> HomesRight(Run(boot, moves))
  {
    if moves != [] {
      EveryRunListed(boot, Init(moves));
      if Last(moves).Pass? {
        StepListed(Run(boot, Init(moves)), Last(moves).it);
      }
    }
  }

  // ---------- the engine against the region table ----------

  /** The engine takes every peer of this pass. */
  predicate RefusesNothing(it: Iteration) {
    it.event.Snapshot? ==> it.event.refusedUps == {} && it.event.refusedRekeys == {}
  }

  /** The engine has exactly the listed peers. */
  ghost predicate InStep(s: State) {
    s.engine == s.regions.Keys
  }

  lemma {:induction false} DrainInStep(s: State, signals: seq<Signal>, fatal: bool)
    requires InStep(s)
    ensures InStep(Drain(s, signals, fatal).state)
  {
    if signals != [] {
      DrainInStep(s, Init(signals), fatal);
    }
  }

  lemma OnEventInStep(s: State, it: Iteration)
    requires s.session.Some? && InStep(s) && RefusesNothing(it)
    ensures InStep(OnEvent(s, it))
  {
    if it.event.Snapshot? {
      var d := ApplyFrame(s.session.value.netmap, it.event.frame, it.event.order).delta;
      EngineWithinRegions(s.engine, s.regions, d, {}, {}, it.ourHome);
    }
  }

  lemma StepInStep(s: State, it: Iteration)
    requires InStep(s) && RefusesNothing(it)
    ensures InStep(Step(s, it))
  {
    if s.exit.None? && !it.stopAtTop {
      DrainInStep(s, it.signals, Fatal(s.tracker.state));
      var d := Drain(s, it.signals, Fatal(s.tracker.state)).state;
      OnEventInStep(if d.session.Some? then d else d.(session := Some(Session(d.nodeKey, EMPTY_TABLE))), it);
    }
  }

  /** In every run that refuses nothing, with any reconnects, parks, logouts and restarts, engine and table agree. */
  lemma {:induction false} EveryRunInStep(boot: Boot, moves: seq<Move>)
    requires forall i | 0 <= i < |moves| && moves[i].Pass? :: RefusesNothing(moves[i].it)
    ensures InStep(Run(boot, moves))
  {
    if moves != [] {
      assert forall i | 0 <= i < |Init(moves)| :: Init(moves)[i] == moves[i];
      EveryRunInStep(boot, Init(moves));
      if Last(moves).Pass? {
        assert RefusesNothing(moves[|moves| - 1].it);
        StepInStep(Run(boot, Init(moves)), Last(moves).it);
      }
    }
  }

  /** Whatever is refused, a snapshot leaves a peer in the engine that it neither removes nor moves. */
  lemma SnapshotKeepsPeer(s: State, it: Iteration, k: NodeKey)
    requires HandlesEvent(s, it) && s.session.Some? && it.signals == [] && it.event.Snapshot? && k in s.engine
    requires var d := ApplyFrame(s.session.value.netmap, it.event.frame, it.event.order).delta;
             k !in d.removed && forall m | m in d.rekeyed :: m.oldKey != k
    ensures k in Step(s, it).engine
  {
    var d := ApplyFrame(s.session.value.netmap, it.event.frame, it.event.order).delta;
    EngineKeeps(s.engine, d, it.event.refusedUps, it.event.refusedRekeys, k);
  }

  // ---------- what a pass does ----------

  /** The last request in a queue to run or to park, if any. */
  function LastWant(signals: seq<Signal>, was: bool): bool {
    if signals == [] then was
    else if Last(signals).SetWantRunning? then Last(signals).desired
    else LastWant(Init(signals), was)
  }

  /**
  Draining a queue: the last request to run or park decides; a reconnect or a
  down request anywhere in it drops the session, a down request the peers too;
  logouts and logins are noticed wherever they stand. A fatal state ignores all.
  */
  lemma {:induction false} DrainMeans(s: State, signals: seq<Signal>, fatal: bool)
    requires Contained(s)
    ensures var d := Drain(s, signals, fatal);
            && d.state.wantRunning == (if fatal then s.wantRunning else LastWant(signals, s.wantRunning))
            && (d.logout <==> !fatal && Logout in signals)
            && (d.login <==> !fatal && LoginInteractive in signals)
            && (fatal || (ForceReconnect !in signals && SetWantRunning(false) !in signals) ==>
                  d.state.session == s.session)
            && (!fatal && (ForceReconnect in signals || SetWantRunning(false) in signals) ==> d.state.session.None?)
            && (fatal || SetWantRunning(false) !in signals ==>
                  d.state.engine == s.engine && d.state.regions == s.regions)
            && (!fatal && SetWantRunning(false) in signals ==> d.state.engine == {} && d.state.regions == map[])
  {
    if signals != [] {
      assert forall x :: x in signals <==> x in Init(signals) || x == Last(signals);
      DrainMeans(s, Init(signals), fatal);
      DrainContained(s, Init(signals), fatal);
    }
  }

  /** The state a pass has reached after its queue, if it goes on to its connection. */
  ghost predicate GoesOn(s: State, it: Iteration) {
    && s.exit.None? && !it.stopAtTop
    && var d := Drain(s, it.signals, Fatal(s.tracker.state));
       d.state.wantRunning && !d.login && !d.logout
  }

  /** The pass tries to open a session. */
  ghost predicate Bootstraps(s: State, it: Iteration) {
    && GoesOn(s, it) && !it.stopAsleep
    && var d := Drain(s, it.signals, Fatal(s.tracker.state)).state;
       d.session.None? && d.tracker.state != NeedsLogin
  }

  /** The pass has a session, old or new, and takes an event from it. */
  ghost predicate HandlesEvent(s: State, it: Iteration) {
    && GoesOn(s, it)
    && (|| Drain(s, it.signals, Fatal(s.tracker.state)).state.session.Some?
        || (Bootstraps(s, it) && it.bootstrap.NewSession?))
  }

  /** The pass comes to a wait: it is parked, or has no session. */
  ghost predicate Sleeps(s: State, it: Iteration) {
    && s.exit.None? && !it.stopAtTop
    && var d := Drain(s, it.signals, Fatal(s.tracker.state));
       !(d.login && d.state.wantRunning) && !d.logout && (!d.state.wantRunning || d.state.session.None?)
  }

  /** How a pass ends the loop: each kind of exit has exactly these causes. */
  lemma ExitIff(s: State, it: Iteration)
    requires Contained(s) && s.exit.None?
    ensures var e, fatal := Step(s, it).exit, Fatal(s.tracker.state);
            && (e == Some(NeedsRelogin) <==>
                  || (!it.stopAtTop && !fatal && LoginInteractive in it.signals && LastWant(it.signals, s.wantRunning))
                  || (Bootstraps(s, it) && it.bootstrap.LoginRequired?))
            && (e == Some(Failed) <==>
                  || (Bootstraps(s, it) && it.bootstrap.BootstrapError? && it.bootstrap.kind != Transient)
                  || (HandlesEvent(s, it) && it.event.EventError? && it.event.kind != Transient))
            && (e == Some(ExitStopped) <==> it.stopAtTop || (it.stopAsleep && Sleeps(s, it)))
  {
    DrainMeans(s, it.signals, Fatal(s.tracker.state));
    DrainContained(s, it.signals, Fatal(s.tracker.state));
  }

  function Shown(kind: ErrorClass): OnlineState {
    if kind == AuthFatal then AuthFailed else SecurityFailed
  }

  /** A failure shows in the tracker as the kind of error that the control plane gave. */
  lemma FailureIsShown(s: State, it: Iteration)
    requires s.exit.None? && Step(s, it).exit == Some(Failed)
    ensures HandlesEvent(s, it) ==>
              it.event.EventError? && Step(s, it).tracker.state == Shown(it.event.kind)
    ensures !HandlesEvent(s, it) ==>
              it.bootstrap.BootstrapError? && Step(s, it).tracker.state == Shown(it.bootstrap.kind)
  {
    DrainKeys(s, it.signals, Fatal(s.tracker.state));
  }

  /** What a pass that takes an event tells the tracker, and does to the session. */
  lemma EventIsNoted(s: State, it: Iteration)
    requires HandlesEvent(s, it) && !it.event.EventError?
    ensures var t := Step(s, it);
            && t.session.Some?
            && (!it.event.Idle? ==> t.tracker.lastMapEvent == Some(it.now) && t.tracker.controlReconnects == 0)
            && (it.derpAlive ==> t.tracker.lastDerpRx == Some(it.now) && t.tracker.derpReconnects == 0)
            && t.tracker.state == ComputeNextState(t.tracker.(state := BeforeTick(s, it)), it.now)
  {
  }

  /** The state the tracker has when the pass comes to its tick. */
  ghost function BeforeTick(s: State, it: Iteration): OnlineState {
    Drain(s, it.signals, Fatal(s.tracker.state)).state.tracker.state
  }

  /** A transient error on a session drops it and counts as a loss of the control plane; nothing else changes. */
  lemma LossDropsSession(s: State, it: Iteration)
    requires HandlesEvent(s, it) && it.event == EventError(Transient)
    ensures var d, t := Drain(s, it.signals, Fatal(s.tracker.state)).state, Step(s, it);
            && t.session.None? && t.exit.None? && t.engine == d.engine && t.regions == d.regions
            && t.tracker.controlReconnects == d.tracker.controlReconnects + 1
            && t.tracker.state == d.tracker.state
  {
    DrainKeys(s, it.signals, Fatal(s.tracker.state));
  }

  /** A pass that leaves the runtime not wanted shows it stopped, and asking to run again clears that at once. */
  lemma ParkIsShown(s: State, it: Iteration)
    requires s.exit.None? && !it.stopAtTop
    ensures !Step(s, it).wantRunning ==> Step(s, it).tracker.state == Stopped
    ensures !s.wantRunning && s.tracker.state == Stopped ==>
              var d := Drain(s, [SetWantRunning(true)], false).state;
              d.wantRunning && d.tracker.state == Connecting && d.session.None?
  {
    DrainOne(s, SetWantRunning(true));
  }

  // ---------- the session's table ----------

  /** The frame a pass takes, if it takes one. */
  ghost function FrameOf(it: Iteration): seq<Received> {
    if it.event.Snapshot? then [Received(it.event.frame, it.event.order)] else []
  }

  /** The frames that arrived on the session a run ends with, since it was opened. */
  ghost function FramesSince(boot: Boot, moves: seq<Move>): seq<Received> {
    if moves == [] then []
    else
      match Last(moves)
      case Restart(_, _) =>
        if Run(boot, Init(moves)).exit == Some(NeedsRelogin) then [] else FramesSince(boot, Init(moves))
      case Pass(it) =>
        var s := Run(boot, Init(moves));
        if HandlesEvent(s, it) then
          if Bootstraps(s, it) then FrameOf(it) else FramesSince(boot, Init(moves)) + FrameOf(it)
        else FramesSince(boot, Init(moves))
  }

  lemma AppendFrame(t: Table, frames: seq<Received>, it: Iteration)
    ensures ApplyAll(t, frames + FrameOf(it)) ==
            if it.event.Snapshot? then ApplyFrame(ApplyAll(t, frames), it.event.frame, it.event.order).table
            else ApplyAll(t, frames)
  {
    if it.event.Snapshot? {
      assert Init(frames + FrameOf(it)) == frames;
    } else {
      Empty(frames);
    }
  }

  /** What one pass does to the session's table. */
  lemma StepTable(s: State, it: Iteration)
    requires Step(s, it).session.Some?
    ensures var t, event := Step(s, it).session.value.netmap, it.event;
            if !HandlesEvent(s, it) then s.session == Step(s, it).session
            else
              var from := if Bootstraps(s, it) then EMPTY_TABLE else TableAtEvent(s, it);
              && t == (if event.Snapshot? then ApplyFrame(from, event.frame, event.order).table else from)
              && (!Bootstraps(s, it) ==> s.session.Some? && TableAtEvent(s, it) == s.session.value.netmap)
  {
    DrainListed(s, it.signals, Fatal(s.tracker.state));
  }

  /**
  In every run a live session's table is what merging, in order, the frames that
  arrived since the session was opened gives from an empty table.
  */
  lemma {:induction false} EveryRunTable(boot: Boot, moves: seq<Move>)
    ensures var s := Run(boot, moves);
            s.session.Some? ==> s.session.value.netmap == ApplyAll(EMPTY_TABLE, FramesSince(boot, moves))
  {
    if moves != [] {
      var s := Run(boot, Init(moves));
      EveryRunTable(boot, Init(moves));
      if Last(moves).Pass? && Step(s, Last(moves).it).session.Some? {
        var it := Last(moves).it;
        StepTable(s, it);
        AppendFrame(EMPTY_TABLE, if Bootstraps(s, it) then [] else FramesSince(boot, Init(moves)), it);
        Empty(FrameOf(it));
      }
    }
  }

  /** So its index is sound, in every run whose frames keep each key with its node. */
  lemma EveryRunIndexed(boot: Boot, moves: seq<Move>, owner: NodeKey -> int)
    requires forall r | r in FramesSince(boot, moves) :: FrameOwned(r.frame, owner)
    ensures Run(boot, moves).session.Some? ==> Good(Run(boot, moves).session.value.netmap, owner)
  {
    EveryRunTable(boot, moves);
    EveryRunKeepsIndex(FramesSince(boot, moves), owner);
  }

  // ---------- after a logout ----------

  ghost predicate LoggedOutNow(s: State) {
    s.wantRunning && s.session.None? && s.engine == {} && s.tracker.state == NeedsLogin
  }

  /** This pass performs a logout that the control plane accepts. */
  ghost predicate LogsOut(s: State, it: Iteration) {
    && s.exit.None? && !it.stopAtTop
    && var d := Drain(s, it.signals, Fatal(s.tracker.state));
       !(d.login && d.state.wantRunning) && d.logout && it.logout.LogoutOk?
  }

  lemma LogoutLogsOut(s: State, it: Iteration)
    requires Contained(s) && LogsOut(s, it)
    ensures LoggedOutNow(Step(s, it)) && Step(s, it).exit.None?
  {
    DrainContained(s, it.signals, Fatal(s.tracker.state));
  }

  lemma {:induction false} DrainStaysLoggedOut(s: State, signals: seq<Signal>, fatal: bool)
    requires LoggedOutNow(s) && SetWantRunning(false) !in signals
    ensures var d := Drain(s, signals, fatal);
            LoggedOutNow(d.state) && d.state.exit == s.exit
    ensures LoginInteractive !in signals ==> !Drain(s, signals, fatal).login
  {
    if signals != [] {
      assert forall x | x in Init(signals) :: x in signals;
      DrainStaysLoggedOut(s, Init(signals), fatal);
      assert Last(signals) in signals;
    }
  }

  /** Without a down request a logged-out runtime stays logged out, whatever the control plane replies. */
  lemma StepStaysLoggedOut(s: State, it: Iteration)
    requires LoggedOutNow(s) && SetWantRunning(false) !in it.signals
    ensures LoggedOutNow(Step(s, it))
    ensures LoginInteractive !in it.signals && s.exit != Some(NeedsRelogin) ==> Step(s, it).exit != Some(NeedsRelogin)
  {
    if s.exit.None? && !it.stopAtTop {
      DrainStaysLoggedOut(s, it.signals, Fatal(s.tracker.state));
    }
  }

  function Passes(its: seq<Iteration>): seq<Move> {
    if its == [] then [] else Passes(Init(its)) + [Pass(Last(its))]
  }

  /** After an accepted logout, every continuation with no down and no login request is still logged out. */
  lemma {:induction false} LogoutLasts(boot: Boot, before: seq<Move>, it: Iteration, after: seq<Iteration>)
    requires LogsOut(Run(boot, before), it)
    requires forall x | x in after :: SetWantRunning(false) !in x.signals && LoginInteractive !in x.signals
    ensures var s := Run(boot, before + [Pass(it)] + Passes(after));
            LoggedOutNow(s) && s.exit != Some(NeedsRelogin)
  {
    var moves := before + [Pass(it)] + Passes(after);
    if after == [] {
      assert Init(moves) == before && Last(moves) == Pass(it);
      EveryRunContained(boot, before);
      LogoutLogsOut(Run(boot, before), it);
    } else {
      assert Init(moves) == before + [Pass(it)] + Passes(Init(after));
      assert Last(moves) == Pass(Last(after));
      assert forall x | x in Init(after) :: x in after;
      LogoutLasts(boot, before, it, Init(after));
      assert Last(after) in after;
      StepStaysLoggedOut(Run(boot, Init(moves)), Last(after));
    }
  }

  // ---------- the key of a session and the key of the data plane ----------

  /** Some pass since the last restart performed an accepted logout. */
  ghost predicate LoggedOutSince(boot: Boot, moves: seq<Move>) {
    moves != [] &&
    match Last(moves)
    case Pass(it) => LoggedOutSince(boot, Init(moves)) || LogsOut(Run(boot, Init(moves)), it)
    case Restart(_, _) => Run(boot, Init(moves)).exit != Some(NeedsRelogin) && LoggedOutSince(boot, Init(moves))
  }

  /** No down request arrives between an accepted logout and the next restart. */
  ghost predicate NoDownAfterLogout(boot: Boot, moves: seq<Move>) {
    moves == [] ||
    (&& NoDownAfterLogout(boot, Init(moves))
     && (Last(moves).Pass? && LoggedOutSince(boot, Init(moves)) ==> SetWantRunning(false) !in Last(moves).it.signals))
  }

  /** Sessions use the key the data plane was built with; a runtime whose stored key moved on is logged out. */
  ghost predicate KeysMatch(s: State) {
    && (s.session.Some? ==> s.session.value.key == s.builtKey)
    && (s.nodeKey != s.builtKey ==> LoggedOutNow(s))
  }

  lemma {:induction false} DrainKeys(s: State, signals: seq<Signal>, fatal: bool)
    ensures var d := Drain(s, signals, fatal).state;
            && d.nodeKey == s.nodeKey && d.builtKey == s.builtKey && d.exit == s.exit
            && (d.session.None? || d.session == s.session)
  {
    if signals != [] {
      DrainKeys(s, Init(signals), fatal);
    }
  }

  lemma ConnectedKeys(s: State, it: Iteration)
    requires s.session.Some? ==> s.session.value.key == s.builtKey
    requires s.nodeKey == s.builtKey
    ensures var t := Connected(s, it);
            && (t.session.Some? ==> t.session.value.key == t.builtKey)
            && t.nodeKey == s.nodeKey && t.builtKey == s.builtKey
  {
  }

  lemma StepKeepsStoredKey(s: State, it: Iteration)
    ensures Step(s, it).builtKey == s.builtKey
    ensures Step(s, it).nodeKey != s.nodeKey ==> LogsOut(s, it)
  {
    DrainKeys(s, it.signals, Fatal(s.tracker.state));
  }

  lemma StepKeys(s: State, it: Iteration)
    requires Contained(s) && KeysMatch(s)
    requires s.nodeKey != s.builtKey ==> SetWantRunning(false) !in it.signals
    ensures KeysMatch(Step(s, it))
  {
    StepKeepsStoredKey(s, it);
    if s.nodeKey != s.builtKey {
      StepStaysLoggedOut(s, it);
    } else if s.exit.None? && !it.stopAtTop {
      DrainKeys(s, it.signals, Fatal(s.tracker.state));
      ConnectedKeys(Drain(s, it.signals, Fatal(s.tracker.state)).state, it);
      if LogsOut(s, it) {
        LogoutLogsOut(s, it);
      }
    }
  }

  /** In every run without a down request after an accepted logout, sessions and data plane share their key. */
  lemma {:induction false} EveryRunKeysMatch(boot: Boot, moves: seq<Move>)
    requires NoDownAfterLogout(boot, moves)
    ensures KeysMatch(Run(boot, moves))
    ensures Run(boot, moves).nodeKey != Run(boot, moves).builtKey ==> LoggedOutSince(boot, moves)
  {
    if moves != [] {
      EveryRunKeysMatch(boot, Init(moves));
      EveryRunContained(boot, Init(moves));
      if Last(moves).Pass? {
        StepKeys(Run(boot, Init(moves)), Last(moves).it);
        StepKeepsStoredKey(Run(boot, Init(moves)), Last(moves).it);
      }
    }
  }

  /** This pass opens a session, and its first event does not drop it again. */
  ghost predicate OpensSession(s: State, it: Iteration) {
    && s.exit.None? && !it.stopAtTop && !it.stopAsleep
    && it.bootstrap.NewSession? && it.event != EventError(Transient)
    && var d := Drain(s, it.signals, Fatal(s.tracker.state));
       !d.login && !d.logout && d.state.wantRunning && d.state.session.None? && d.state.tracker.state != NeedsLogin
  }

  /** A session on another key than the data plane's begins exactly when one is opened after the stored key moved on. */
  lemma SplitBeginsIff(s: State, it: Iteration)
    requires s.session.Some? ==> s.session.value.key == s.builtKey
    ensures var t := Step(s, it);
            t.session.Some? && t.session.value.key != t.builtKey <==> s.nodeKey != s.builtKey && OpensSession(s, it)
  {
    DrainKeys(s, it.signals, Fatal(s.tracker.state));
  }

  /**
  The hypothesis is needed. From every logged-out state whose key was rotated, a
  down request followed by an up request opens a session on the new key while
  the engine and the DERP transport still hold the old one.
  */
  lemma DownThenUpSplitsKeys(s: State, down: Iteration, up: Iteration)
    requires LoggedOutNow(s) && s.nodeKey != s.builtKey && s.exit.None?
    requires !down.stopAtTop && !down.stopAsleep && down.signals == [SetWantRunning(false)]
    requires !up.stopAtTop && !up.stopAsleep && up.signals == [SetWantRunning(true)]
    requires up.bootstrap.NewSession? && up.event.Idle?
    ensures var t := Step(Step(s, down), up);
            && t.exit.None? && t.session.Some?
            && t.session.value.key == s.nodeKey && t.builtKey == s.builtKey
            && t.session.value.key != t.builtKey
  {
    DrainOne(s, SetWantRunning(false));
    DrainOne(Step(s, down), SetWantRunning(true));
  }

  lemma DrainOne(s: State, sig: Signal)
    ensures Drain(s, [sig], false) == OnSignal(Drained(s, false, false), sig, false)
  {
    assert Init([sig]) == [];
  }

  /** Such a state is reached: log in, log out with a rotated key, then ask for down and up. */
  lemma SplitKeysReachable(first: NodeKey, second: NodeKey, quiet: Iteration)
    requires first != second
    requires !quiet.stopAtTop && !quiet.stopAsleep && quiet.bootstrap.NewSession? && quiet.event.Idle?
    ensures var boot := Boot(true, Authorized, first);
            var out := quiet.(signals := [Logout], logout := LogoutOk(Some(second)));
            var down := quiet.(signals := [SetWantRunning(false)]);
            var up := quiet.(signals := [SetWantRunning(true)]);
            var s := Run(boot, [Pass(out), Pass(down), Pass(up)]);
            s.session.Some? && s.session.value.key == second && s.builtKey == first
  {
    var boot := Boot(true, Authorized, first);
    var out := quiet.(signals := [Logout], logout := LogoutOk(Some(second)));
    var down := quiet.(signals := [SetWantRunning(false)]);
    var up := quiet.(signals := [SetWantRunning(true)]);
    DrainOne(Up(boot), Logout);
    LogoutLogsOut(Up(boot), out);
    DownThenUpSplitsKeys(Step(Up(boot), out), down, up);
    assert Init([Pass(out), Pass(down), Pass(up)]) == [Pass(out), Pass(down)];
    assert Init([Pass(out), Pass(down)]) == [Pass(out)] && Init([Pass(out)]) == [];
    assert Run(boot, [Pass(out)]) == Next(Run(boot, []), Pass(out));
    assert Run(boot, [Pass(out), Pass(down)]) == Next(Run(boot, [Pass(out)]), Pass(down));
  }

  // ---------- a failed logout ----------

  /** This pass asks for a logout and the control plane refuses it. */
  ghost predicate FailsToLogOut(s: State, it: Iteration) {
    && s.exit.None? && !it.stopAtTop && it.logout.LogoutFailed?
    && var d := Drain(s, it.signals, Fatal(s.tracker.state));
       d.logout && !(d.login && d.state.wantRunning)
  }

  /** A failed logout keeps the state the rest of the queue led to if and only if the runtime was running by then. */
  lemma FailedLogoutKeepsIff(s: State, it: Iteration)
    requires FailsToLogOut(s, it)
    ensures var d := Drain(s, it.signals, Fatal(s.tracker.state)).state;
            && (Step(s, it) == d <==> d.wantRunning)
            && (it.signals == [Logout] ==> d == s)
  {
    if it.signals == [Logout] {
      assert Init([Logout]) == [];
    }
  }

  /**
  A logout that fails while the runtime is parked does not keep the parked
  state: the next pass opens a session, with the tracker still at `Stopped`.
  */
  lemma FailedLogoutUnparks(s: State, out: Iteration, next: Iteration)
    requires Contained(s) && !s.wantRunning && s.tracker.state == Stopped && s.exit.None?
    requires !out.stopAtTop && out.signals == [Logout] && out.logout.LogoutFailed?
    requires !next.stopAtTop && !next.stopAsleep && next.signals == [] && next.bootstrap.NewSession? && next.event.Idle?
    ensures var t := Step(Step(s, out), next);
            t.wantRunning && t.session.Some? && t.tracker.state == Stopped && t.exit.None?
  {
    DrainOne(s, Logout);
  }

  lemma {:induction false} DrainKeepsStopped(s: State, signals: seq<Signal>, fatal: bool)
    requires s.wantRunning && s.tracker.state == Stopped && SetWantRunning(false) !in signals
    ensures var d := Drain(s, signals, fatal).state; d.wantRunning && d.tracker.state == Stopped
  {
    if signals != [] {
      assert forall x | x in Init(signals) :: x in signals;
      DrainKeepsStopped(s, Init(signals), fatal);
      assert Last(signals) in signals;
    }
  }

  /**
  From there only a down request, an accepted logout or a fatal error changes
  what the tracker shows: map events, ticks and even an up request leave it at
  `Stopped` while the runtime is running.
  */
  lemma StoppedWhileRunningStays(s: State, it: Iteration)
    requires s.wantRunning && s.tracker.state == Stopped && SetWantRunning(false) !in it.signals
    requires !LogsOut(s, it)
    ensures var t := Step(s, it);
            t.wantRunning && (t.tracker.state == Stopped || t.exit == Some(Failed))
  {
    DrainKeepsStopped(s, it.signals, Fatal(s.tracker.state));
  }

  // ---------- the loop on fields ----------

  class Runtime {
    var wantRunning: bool
    var session: Option<Session>
    const lifecycle: LifecycleTracker
    var nodeKey: NodeKey
    const builtKey: NodeKey
    var engine: set<NodeKey>
    var peerRegions: Regions
    var exit: Option<Exit>

    ghost function Value(): State
      reads this, lifecycle
    {
      State(wantRunning, session, lifecycle.value, nodeKey, builtKey, engine, peerRegions, exit)
    }

    constructor (boot: Boot)
      ensures fresh(lifecycle) && Value() == Up(boot)
    {
      var tracker := new LifecycleTracker();
      var want := boot.wantRunning;
      var firstSession: Option<Session> := None;
      if boot.wantRunning {
        match boot.login {
          case Authorized => firstSession := Some(Session(boot.key, EMPTY_TABLE));
          case Parked => want := false; tracker.Park();
          case LoggedOut => tracker.EnterNeedsLogin();
          case Shutdown => tracker.Park();
        }
      } else {
        tracker.Park();
      }
      lifecycle, wantRunning, session := tracker, want, firstSession;
      nodeKey, builtKey, engine, peerRegions, exit := boot.key, boot.key, {}, map[], None;
    }

    method ClearEnginePeers()
      modifies this
      ensures Value() == ClearEngine(old(Value()))
    {
      var rest := peerRegions.Keys;
      while rest != {}
        invariant rest <= old(peerRegions.Keys)
        invariant engine == old(engine) - (old(peerRegions.Keys) - rest)
        invariant Value() == old(Value()).(engine := engine)
        decreases rest
      {
        var key :| key in rest;
        engine := engine - {key};
        rest := rest - {key};
      }
      peerRegions := map[];
    }

    method DrainSignals(signals: seq<Signal>, fatal: bool) returns (logout: bool, login: bool)
      modifies this, lifecycle
      ensures Drained(Value(), logout, login) == Drain(old(Value()), signals, fatal)
    {
      logout, login := false, false;
      for i := 0 to |signals|
        invariant Drained(Value(), logout, login) == Drain(old(Value()), signals[..i], fatal)
      {
        assert Init(signals[..i + 1]) == signals[..i];
        if fatal {
          continue;
        }
        match signals[i] {
          case ForceReconnect =>
            session := None;
          case SetWantRunning(desired) =>
            if desired && !wantRunning {
              wantRunning := true;
              lifecycle.Unpark();
              session := None;
            } else if !desired && wantRunning {
              wantRunning := false;
              session := None;
              ClearEnginePeers();
              lifecycle.Park();
            }
          case Logout =>
            logout := true;
          case LoginInteractive =>
            login := true;
        }
      }
      assert signals[..|signals|] == signals;
    }

    method LogOut(reply: LogoutReply)
      modifies this, lifecycle
      ensures Value() == PerformLogout(old(Value()), reply)
    {
      if reply.LogoutOk? {
        session := None;
        ClearEnginePeers();
        if reply.rotated.Some? {
          nodeKey := reply.rotated.value;
        }
        lifecycle.EnterNeedsLogin();
      }
    }

    method FailWith(c: ErrorClass)
      requires c != Transient
      modifies this, lifecycle
      ensures Value() == FatalExit(old(Value()), c)
    {
      if c == AuthFatal {
        lifecycle.Fail(Auth);
      } else {
        lifecycle.Fail(Security);
      }
      exit := Some(Failed);
    }

    method HandleEvent(it: Iteration)
      requires session.Some?
      modifies this, lifecycle
      ensures Value() == OnEvent(old(Value()), it)
    {
      match it.event {
        case EventError(c) =>
          if c == Transient {
            lifecycle.NoteControlReconnect();
            session := None;
          } else {
            FailWith(c);
          }
          return;
        case Snapshot(frame, order, refusedUps, refusedRekeys) =>
          lifecycle.NoteMapEvent(it.now);
          var v := ApplyFrame(session.value.netmap, frame, order);
          session := Some(session.value.(netmap := v.table));
          engine := PushDeltaToEngine(engine, v.delta, refusedUps, refusedRekeys);
          peerRegions := UpdatePeerRegions(peerRegions, v.delta, it.ourHome);
        case KeepAlive =>
          lifecycle.NoteMapEvent(it.now);
        case Idle =>
      }
      if it.derpAlive {
        lifecycle.NoteDerpRx(it.now);
      }
      lifecycle.Advance(it.now);
    }

    /** One pass of the event loop. */
    method RunOnce(it: Iteration)
      modifies this, lifecycle
      ensures Value() == Step(old(Value()), it)
    {
      if exit.Some? {
        return;
      }
      if it.stopAtTop {
        exit := Some(ExitStopped);
        return;
      }
      var fatal := Fatal(lifecycle.value.state);
      var logout, login := DrainSignals(it.signals, fatal);
      if login && wantRunning {
        exit := Some(NeedsRelogin);
        return;
      }
      if logout {
        LogOut(it.logout);
        wantRunning := true;
        return;
      }
      if !wantRunning {
        lifecycle.Park();
        exit := if it.stopAsleep then Some(ExitStopped) else None;
        return;
      }
      if session.None? && lifecycle.value.state != NeedsLogin {
        if it.stopAsleep {
          exit := Some(ExitStopped);
          return;
        }
        match it.bootstrap {
          case NewSession =>
            session := Some(Session(nodeKey, EMPTY_TABLE));
          case LoginRequired =>
            exit := Some(NeedsRelogin);
            return;
          case BootstrapError(c) =>
            if c != Transient {
              FailWith(c);
            }
            return;
        }
      }
      if session.None? {
        exit := if it.stopAsleep then Some(ExitStopped) else exit;
        return;
      }
      HandleEvent(it);
    }
  }
}
