/**
The connection-state tracker of the client.

`Tracker` is the tracker's value and the functions on it say what each
operation means; class `LifecycleTracker` holds the value in fields. Times are
whole seconds.
*/
module Lifecycle {
  import opened Common

  const DEGRADED_AFTER := 60
  const OFFLINE_RECONNECT_THRESHOLD := 5

  datatype OnlineState =
    | Connecting | Online | Degraded | Offline | NeedsLogin | AuthFailed | SecurityFailed | Stopped

  datatype FatalKind = Auth | Security

  datatype Tracker = Tracker(
    state: OnlineState,
    firstMapEvent: Option<nat>,
    firstDerpRx: Option<nat>,
    lastMapEvent: Option<nat>,
    lastDerpRx: Option<nat>,
    controlReconnects: nat,
    derpReconnects: nat)

  const NEW_TRACKER := Tracker(Connecting, None, None, None, None, 0, 0)

  predicate Fatal(s: OnlineState) {
    s == AuthFailed || s == SecurityFailed
  }

  function MarkFatal(t: Tracker, kind: FatalKind): Tracker {
    t.(state := if kind == Auth then AuthFailed else SecurityFailed)
  }

  function SetNeedsLogin(t: Tracker): Tracker { t.(state := NeedsLogin) }

  function ClearNeedsLogin(t: Tracker): Tracker {
    if t.state == NeedsLogin then t.(state := Connecting) else t
  }

  function SetStopped(t: Tracker): Tracker { t.(state := Stopped) }

  function ClearStopped(t: Tracker): Tracker {
    if t.state == Stopped then t.(state := Connecting) else t
  }

  function RecordMapEvent(t: Tracker, now: nat): Tracker {
    t.(firstMapEvent := if t.firstMapEvent.None? then Some(now) else t.firstMapEvent,
    lastMapEvent := Some(now),
    controlReconnects := 0)
  }

  function RecordDerpRx(t: Tracker, now: nat): Tracker {
    t.(firstDerpRx := if t.firstDerpRx.None? then Some(now) else t.firstDerpRx,
    lastDerpRx := Some(now),
    derpReconnects := 0)
  }

  function RecordControlReconnect(t: Tracker): Tracker {
    t.(controlReconnects := t.controlReconnects + 1)
  }

  function RecordDerpReconnect(t: Tracker): Tracker {
    t.(derpReconnects := t.derpReconnects + 1)
  }

  function ComputeNextState(t: Tracker, now: nat): OnlineState {
    if Fatal(t.state) || t.state == Stopped then t.state
    else if t.controlReconnects >= OFFLINE_RECONNECT_THRESHOLD || t.derpReconnects >= OFFLINE_RECONNECT_THRESHOLD
    then Offline
    else if t.firstMapEvent.None? || t.firstDerpRx.None? then Connecting
    else
      match (t.lastMapEvent, t.lastDerpRx)
      case (None, None) => Connecting
      case (Some(m), None) => Freshness(m, now)
      case (None, Some(d)) => Freshness(d, now)
      case (Some(m), Some(d)) => Freshness(if m >= d then m else d, now)
  }

  function Freshness(mostRecent: nat, now: nat): OnlineState {
    if now - mostRecent > DEGRADED_AFTER then Degraded else Online
  }

  function Tick(t: Tracker, now: nat): Tracker { t.(state := ComputeNextState(t, now)) }

  /** What happens to a tracker between two calls that set its state outright. */
  datatype Signal =
    | MapEvent(now: nat) | DerpRx(now: nat) | ControlReconnect | DerpReconnect | Clock(now: nat)

  function Hear(t: Tracker, signal: Signal): Tracker {
    match signal
    case MapEvent(now) => RecordMapEvent(t, now)
    case DerpRx(now) => RecordDerpRx(t, now)
    case ControlReconnect => RecordControlReconnect(t)
    case DerpReconnect => RecordDerpReconnect(t)
    case Clock(now) => Tick(t, now)
  }

  function Observe(t: Tracker, signals: seq<Signal>): Tracker {
    if signals == [] then t else Hear(Observe(t, Init(signals)), Last(signals))
  }

  /** No sequence of events recovers a fatal tracker or wakes a parked one. */
  lemma {:induction false} StickyStates(t: Tracker, signals: seq<Signal>)
    requires Fatal(t.state) || t.state == Stopped
    ensures Observe(t, signals).state == t.state
  {
    if signals != [] {
      StickyStates(t, Init(signals));
    }
  }

  /**
  From any other state events never lead into one of those, and the login wait lasts exactly
  until the first tick.
  */
  lemma {:induction false} EventsStayNormal(t: Tracker, signals: seq<Signal>)
    requires !Fatal(t.state) && t.state != Stopped
    ensures var s := Observe(t, signals).state; !Fatal(s) && s != Stopped
    ensures Observe(t, signals).state == NeedsLogin <==>
            t.state == NeedsLogin && forall i | 0 <= i < |signals| :: !signals[i].Clock?
  {
    if signals != [] {
      EventsStayNormal(t, Init(signals));
    }
  }

  /** Online means: both planes have been heard, at least one of them within the last minute. */
  lemma OnlineMeansHeardRecently(signals: seq<Signal>, now: nat)
    requires forall i | 0 <= i < |signals| && signals[i].MapEvent? :: signals[i].now <= now
    requires forall i | 0 <= i < |signals| && signals[i].DerpRx? :: signals[i].now <= now
    requires Tick(Observe(NEW_TRACKER, signals), now).state == Online
    ensures exists i | 0 <= i < |signals| :: signals[i].MapEvent?
    ensures exists i | 0 <= i < |signals| :: signals[i].DerpRx?
    ensures exists i | 0 <= i < |signals| ::
              (signals[i].MapEvent? || signals[i].DerpRx?) && now - signals[i].now <= 60
  {
    Heard(signals);
  }

  /** The times a tracker remembers are times of events it was told about. */
  lemma {:induction false} Heard(signals: seq<Signal>)
    ensures var t := Observe(NEW_TRACKER, signals);
            && (t.firstMapEvent.Some? <==> t.lastMapEvent.Some?)
            && (t.firstDerpRx.Some? <==> t.lastDerpRx.Some?)
            && (t.lastMapEvent.Some? ==>
                  exists i | 0 <= i < |signals| :: signals[i] == MapEvent(t.lastMapEvent.value))
            && (t.lastDerpRx.Some? ==>
                  exists i | 0 <= i < |signals| :: signals[i] == DerpRx(t.lastDerpRx.value))
    ensures !Fatal(Observe(NEW_TRACKER, signals).state) && Observe(NEW_TRACKER, signals).state != Stopped
  {
    if signals != [] {
      Heard(Init(signals));
      var t := Observe(NEW_TRACKER, Init(signals));
      if t.lastMapEvent.Some? {
        var i :| 0 <= i < |Init(signals)| && Init(signals)[i] == MapEvent(t.lastMapEvent.value);
        assert signals[i] == MapEvent(t.lastMapEvent.value);
      }
      if t.lastDerpRx.Some? {
        var i :| 0 <= i < |Init(signals)| && Init(signals)[i] == DerpRx(t.lastDerpRx.value);
        assert signals[i] == DerpRx(t.lastDerpRx.value);
      }
      assert signals[|signals| - 1] == Last(signals);
    }
  }

  // ---------- every history ----------

  /** Anything that can be done to a tracker. */
  datatype Op =
    | Fails(kind: FatalKind) | AsksLogin | GotLogin | Parks | Unparks | Sees(signal: Signal)

  function Perform(t: Tracker, op: Op): Tracker {
    match op
    case Fails(kind) => MarkFatal(t, kind)
    case AsksLogin => SetNeedsLogin(t)
    case GotLogin => ClearNeedsLogin(t)
    case Parks => SetStopped(t)
    case Unparks => ClearStopped(t)
    case Sees(signal) => Hear(t, signal)
  }

  function History(ops: seq<Op>): Tracker {
    if ops == [] then NEW_TRACKER else Perform(History(Init(ops)), Last(ops))
  }

  /** Operation `i` parks and nothing after it fails, asks for login or unparks. */
  predicate ParkedSince(ops: seq<Op>, i: nat) {
    i < |ops| && ops[i].Parks? && forall j | i < j < |ops| :: !ops[j].Fails? && !ops[j].AsksLogin? && !ops[j].Unparks?
  }

  /** Operation `i` fails and nothing after it fails otherwise, asks for login or parks. */
  predicate FailedSince(ops: seq<Op>, i: nat, kind: FatalKind) {
    && i < |ops| && ops[i] == Fails(kind)
    && forall j | i < j < |ops| :: !ops[j].Fails? && !ops[j].AsksLogin? && !ops[j].Parks?
  }

  /** Operation `i` asks for login and nothing after it fails, grants it, parks or ticks. */
  predicate WaitingSince(ops: seq<Op>, i: nat) {
    && i < |ops| && ops[i].AsksLogin?
    && forall j | i < j < |ops| ::
         !ops[j].Fails? && !ops[j].GotLogin? && !ops[j].Parks? && !(ops[j].Sees? && ops[j].signal.Clock?)
  }

  /** After every history the tracker is stopped exactly if it was parked and nothing since overrode that. */
  lemma {:induction false} StoppedIff(ops: seq<Op>)
    ensures History(ops).state == Stopped <==> exists i: nat :: ParkedSince(ops, i)
  {
    if ops != [] {
      StoppedIff(Init(ops));
      forall i: nat | i < |ops| - 1
        ensures ParkedSince(ops, i) <==>
                ParkedSince(Init(ops), i) && !Last(ops).Fails? && !Last(ops).AsksLogin? && !Last(ops).Unparks?
      {
        assert forall j | 0 <= j < |ops| - 1 :: Init(ops)[j] == ops[j];
      }
      assert ParkedSince(ops, |ops| - 1) <==> Last(ops).Parks?;
    }
  }

  /**
  It is in a fatal state exactly if it failed that way and nothing since replaced the state;
  no event or tick does.
  */
  lemma {:induction false} FatalIff(ops: seq<Op>, kind: FatalKind)
    ensures History(ops).state == (if kind == Auth then AuthFailed else SecurityFailed) <==>
            exists i: nat :: FailedSince(ops, i, kind)
  {
    if ops != [] {
      FatalIff(Init(ops), kind);
      forall i: nat | i < |ops| - 1
        ensures FailedSince(ops, i, kind) <==>
                FailedSince(Init(ops), i, kind) && !Last(ops).Fails? && !Last(ops).AsksLogin? && !Last(ops).Parks?
      {
        assert forall j | 0 <= j < |ops| - 1 :: Init(ops)[j] == ops[j];
      }
      assert FailedSince(ops, |ops| - 1, kind) <==> Last(ops) == Fails(kind);
    }
  }

  /** It waits for login exactly if it was asked to and nothing since, a tick included, ended the wait. */
  lemma {:induction false} LoginWaitIff(ops: seq<Op>)
    ensures History(ops).state == NeedsLogin <==> exists i: nat :: WaitingSince(ops, i)
  {
    if ops != [] {
      LoginWaitIff(Init(ops));
      forall i: nat | i < |ops| - 1
        ensures WaitingSince(ops, i) <==>
                WaitingSince(Init(ops), i) && !Last(ops).Fails? && !Last(ops).GotLogin? && !Last(ops).Parks?
                && !(Last(ops).Sees? && Last(ops).signal.Clock?)
      {
        assert forall j | 0 <= j < |ops| - 1 :: Init(ops)[j] == ops[j];
      }
      assert WaitingSince(ops, |ops| - 1) <==> Last(ops).AsksLogin?;
    }
  }

  /** How often the control plane was lost since it was last heard. */
  function LossesSince(ops: seq<Op>): nat {
    if ops == [] || (Last(ops).Sees? && Last(ops).signal.MapEvent?) then 0
    else LossesSince(Init(ops)) + if Last(ops) == Sees(ControlReconnect) then 1 else 0
  }

  function DerpLossesSince(ops: seq<Op>): nat {
    if ops == [] || (Last(ops).Sees? && Last(ops).signal.DerpRx?) then 0
    else DerpLossesSince(Init(ops)) + if Last(ops) == Sees(DerpReconnect) then 1 else 0
  }

  lemma {:induction false} LossesAreCounted(ops: seq<Op>)
    ensures History(ops).controlReconnects == LossesSince(ops) && History(ops).derpReconnects == DerpLossesSince(ops)
  {
    if ops != [] {
      LossesAreCounted(Init(ops));
    }
  }

  lemma TickedHistory(ops: seq<Op>, now: nat)
    ensures History(ops + [Sees(Clock(now))]).state == ComputeNextState(History(ops), now)
  {
    assert Init(ops + [Sees(Clock(now))]) == ops;
  }

  /**
  After every history that is neither fatal nor parked, a tick finds the client
  offline exactly after five losses of one plane in a row.
  */
  lemma OfflineIff(ops: seq<Op>, now: nat)
    requires !Fatal(History(ops).state) && History(ops).state != Stopped
    ensures History(ops + [Sees(Clock(now))]).state == Offline <==> LossesSince(ops) >= 5 || DerpLossesSince(ops) >= 5
  {
    LossesAreCounted(ops);
    TickedHistory(ops, now);
  }

  /** When the control plane was last heard. */
  function LastMapEvent(ops: seq<Op>): Option<nat> {
    if ops == [] then None
    else if Last(ops).Sees? && Last(ops).signal.MapEvent? then Some(Last(ops).signal.now)
    else LastMapEvent(Init(ops))
  }

  function LastDerpRx(ops: seq<Op>): Option<nat> {
    if ops == [] then None
    else if Last(ops).Sees? && Last(ops).signal.DerpRx? then Some(Last(ops).signal.now)
    else LastDerpRx(Init(ops))
  }

  lemma {:induction false} TimesAreKept(ops: seq<Op>)
    ensures var t := History(ops);
            && t.lastMapEvent == LastMapEvent(ops) && t.lastDerpRx == LastDerpRx(ops)
            && (t.firstMapEvent.Some? <==> t.lastMapEvent.Some?) && (t.firstDerpRx.Some? <==> t.lastDerpRx.Some?)
  {
    if ops != [] {
      TimesAreKept(Init(ops));
    }
  }

  /** One plane was heard, and not more than a minute before `now`. */
  predicate HeardLately(heard: Option<nat>, now: nat) {
    heard.Some? && now - heard.value <= 60
  }

  /**
  And it finds the client online exactly if neither plane was lost that often, both
  have been heard since the tracker was made, and one of them within the last minute.
  */
  lemma OnlineIff(ops: seq<Op>, now: nat)
    requires !Fatal(History(ops).state) && History(ops).state != Stopped
    ensures History(ops + [Sees(Clock(now))]).state == Online <==>
            && LossesSince(ops) < 5 && DerpLossesSince(ops) < 5
            && LastMapEvent(ops).Some? && LastDerpRx(ops).Some?
            && (HeardLately(LastMapEvent(ops), now) || HeardLately(LastDerpRx(ops), now))
  {
    LossesAreCounted(ops);
    TimesAreKept(ops);
    TickedHistory(ops, now);
  }

  /** Degraded exactly if both planes have been heard, but neither within the last minute. */
  lemma DegradedIff(ops: seq<Op>, now: nat)
    requires !Fatal(History(ops).state) && History(ops).state != Stopped
    ensures History(ops + [Sees(Clock(now))]).state == Degraded <==>
            && LossesSince(ops) < 5 && DerpLossesSince(ops) < 5
            && LastMapEvent(ops).Some? && LastDerpRx(ops).Some?
            && !HeardLately(LastMapEvent(ops), now) && !HeardLately(LastDerpRx(ops), now)
  {
    LossesAreCounted(ops);
    TimesAreKept(ops);
    TickedHistory(ops, now);
  }

  /** And connecting exactly if one of them has never been heard. */
  lemma ConnectingIff(ops: seq<Op>, now: nat)
    requires !Fatal(History(ops).state) && History(ops).state != Stopped
    ensures History(ops + [Sees(Clock(now))]).state == Connecting <==>
            && LossesSince(ops) < 5 && DerpLossesSince(ops) < 5
            && (LastMapEvent(ops).None? || LastDerpRx(ops).None?)
  {
    LossesAreCounted(ops);
    TimesAreKept(ops);
    TickedHistory(ops, now);
  }

  class LifecycleTracker {
    var value: Tracker

    constructor ()
      ensures value == NEW_TRACKER
    {
      value := NEW_TRACKER;
    }

    method Fail(kind: FatalKind)
      modifies this
      ensures value == MarkFatal(old(value), kind)
    {
      var state := match kind case Auth => AuthFailed case Security => SecurityFailed;
      value := value.(state := state);
    }

    method EnterNeedsLogin()
      modifies this
      ensures value == SetNeedsLogin(old(value))
    {
      if value.state != NeedsLogin {
        value := value.(state := NeedsLogin);
      }
    }

    method LeaveNeedsLogin()
      modifies this
      ensures value == ClearNeedsLogin(old(value))
    {
      if value.state == NeedsLogin {
        value := value.(state := Connecting);
      }
    }

    method Park()
      modifies this
      ensures value == SetStopped(old(value))
    {
      if value.state != Stopped {
        value := value.(state := Stopped);
      }
    }

    method Unpark()
      modifies this
      ensures value == ClearStopped(old(value))
    {
      if value.state == Stopped {
        value := value.(state := Connecting);
      }
    }

    method NoteMapEvent(now: nat)
      modifies this
      ensures value == RecordMapEvent(old(value), now)
    {
      if value.firstMapEvent.None? {
        value := value.(firstMapEvent := Some(now));
      }
      value := value.(lastMapEvent := Some(now), controlReconnects := 0);
    }

    method NoteDerpRx(now: nat)
      modifies this
      ensures value == RecordDerpRx(old(value), now)
    {
      if value.firstDerpRx.None? {
        value := value.(firstDerpRx := Some(now));
      }
      value := value.(lastDerpRx := Some(now), derpReconnects := 0);
    }

    method NoteControlReconnect()
      modifies this
      ensures value == RecordControlReconnect(old(value))
    {
      value := value.(controlReconnects := value.controlReconnects + 1);
    }

    method NoteDerpReconnect()
      modifies this
      ensures value == RecordDerpReconnect(old(value))
    {
      value := value.(derpReconnects := value.derpReconnects + 1);
    }

    method Advance(now: nat)
      modifies this
      ensures value == Tick(old(value), now)
    {
      var next := ComputeNextState(value, now);
      if next != value.state {
        value := value.(state := next);
      }
    }

    method Do(op: Op)
      modifies this
      ensures value == Perform(old(value), op)
    {
      match op {
        case Fails(kind) => Fail(kind);
        case AsksLogin => EnterNeedsLogin();
        case GotLogin => LeaveNeedsLogin();
        case Parks => Park();
        case Unparks => Unpark();
        case Sees(signal) =>
          match signal {
            case MapEvent(now) => NoteMapEvent(now);
            case DerpRx(now) => NoteDerpRx(now);
            case ControlReconnect => NoteControlReconnect();
            case DerpReconnect => NoteDerpReconnect();
            case Clock(now) => Advance(now);
          }
      }
    }
  }

  /** The tracker, driven through any history. */
  method Drive(ops: seq<Op>) returns (tracker: LifecycleTracker)
    ensures fresh(tracker) && tracker.value == History(ops)
  {
    tracker := new LifecycleTracker();
    for i := 0 to |ops|
      invariant fresh(tracker) && tracker.value == History(ops[..i])
    {
      InitOfTake(ops, i);
      tracker.Do(ops[i]);
    }
    TakeAll(ops);
  }
}
