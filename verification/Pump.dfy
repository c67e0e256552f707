/**
The pump thread between the blocking Noise stream and the asynchronous HTTP/2
task.

The two threads share a receive queue, a transmit queue, one waker slot for
each, and the `closed` flag; everything else is local. One action is one
critical section of either thread, or one access to the flag. A run is any
sequence of actions: the environment decides which thread moves, what the h2 task
asks for, and what the stream below does.
*/
module Pump {
  import opened Common

  const TX_DRAIN_MAX := 16 * 1024

  /** Where the pump is, with the bytes it holds in hand. */
  datatype PumpAt =
    | Top
    | Drain
    | Write(out: seq<byte>)
    | Flush
    | WakeTx
    | Read
    | Push(got: seq<byte>)
    | WakeRx
    | FailClose(out: seq<byte>)
    | FailWakeRx(out: seq<byte>)
    | FailWakeTx(out: seq<byte>)
    | Done(out: seq<byte>)

  /** Where the h2 task is inside one of its poll calls. */
  datatype TaskAt =
    | Outside
    | ReadClosed(max: nat) | ReadStore(max: nat) | ReadRecheck(max: nat)
    | WriteAppend(buf: seq<byte>)
    | FlushLook | FlushStore | FlushRecheck
    | ShutWakeRx | ShutWakeTx

  /**
  A waker slot together with who is waiting on it. `woken` means a wake-up has
  come since the current poll began, `parked` that the last poll returned
  Pending and none has come since it began.
  */
  datatype Slot = Slot(stored: bool, woken: bool, parked: bool)

  /**
  How a poll ended; `NoneYet` while one is under way. A read that is `Finished`
  reports the end or the error the pump stored.
  */
  datatype Answer = NoneYet | Data(bytes: seq<byte>) | Finished | Pending | Took(n: nat) | Flushed | Refused | ShutDown

  datatype State = State(
    pump: PumpAt,
    task: TaskAt,
    rxBuf: seq<byte>,
    txBuf: seq<byte>,
    rx: Slot,
    tx: Slot,
    closed: bool,
    accepted: seq<byte>,
    sent: seq<byte>,
    received: seq<byte>,
    delivered: seq<byte>,
    answer: Answer)

  const IDLE_SLOT := Slot(false, false, false)
  const START := State(Top, Outside, [], [], IDLE_SLOT, IDLE_SLOT, false, [], [], [], [], NoneYet)

  /** What the stream below does when the pump calls it. */
  datatype Below = Ok(bytes: seq<byte>) | TimeOut | Fails

  datatype Call = PollRead(max: nat) | PollWrite(buf: seq<byte>) | PollFlush | Shutdown

  datatype Action = PumpMoves(below: Below) | TaskCalls(call: Call) | TaskMoves

  // ---------- waker slots ----------

  function Store(s: Slot): Slot { s.(stored := true) }

  function Wake(s: Slot): Slot { if s.stored then Slot(false, true, false) else s }

  /** The poll returns Pending. */
  function Park(s: Slot): Slot { s.(parked := !s.woken) }

  /** The h2 task polls again. */
  function Resume(s: Slot): Slot { s.(parked := false, woken := false) }

  // ---------- the pump ----------

  function PumpStep(s: State, below: Below): State {
    match s.pump
    case Top => s.(pump := if s.closed then Done([]) else Drain)
    case Drain =>
      var n := if |s.txBuf| < TX_DRAIN_MAX then |s.txBuf| else TX_DRAIN_MAX;
      if n == 0 then s.(pump := Read) else s.(pump := Write(s.txBuf[..n]), txBuf := s.txBuf[n..])
    case Write(out) =>
      if below.Fails? then s.(pump := FailClose(out)) else s.(pump := Flush, sent := s.sent + out)
    case Flush => s.(pump := if below.Fails? then FailClose([]) else WakeTx)
    case WakeTx => s.(pump := Read, tx := Wake(s.tx))
    case Read =>
      (match below
       case Ok(bytes) =>
         // A read of no bytes is the end of the stream.
         if bytes == [] then s.(pump := FailClose([])) else s.(pump := Push(bytes), received := s.received + bytes)
       case TimeOut => s.(pump := Top)
       case Fails => s.(pump := FailClose([])))
    case Push(got) => s.(pump := WakeRx, rxBuf := s.rxBuf + got)
    case WakeRx => s.(pump := Top, rx := Wake(s.rx))
    case FailClose(out) => s.(pump := FailWakeRx(out), closed := true)
    case FailWakeRx(out) => s.(pump := FailWakeTx(out), rx := Wake(s.rx))
    case FailWakeTx(out) => s.(pump := Done(out), tx := Wake(s.tx))
    case Done(_) => s
  }

  // ---------- the h2 task ----------

  function DrainRx(s: State, max: nat): State {
    var n := if max < |s.rxBuf| then max else |s.rxBuf|;
    s.(task := Outside, rxBuf := s.rxBuf[n..], delivered := s.delivered + s.rxBuf[..n], answer := Data(s.rxBuf[..n]))
  }

  function Begin(s: State, call: Call): State
    requires s.task.Outside?
  {
    match call
    case PollRead(max) =>
      var t := s.(rx := Resume(s.rx), answer := NoneYet);
      if t.rxBuf != [] then DrainRx(t, max) else t.(task := ReadClosed(max))
    case PollWrite(buf) =>
      if s.closed then s.(answer := Refused) else s.(task := WriteAppend(buf), answer := NoneYet)
    case PollFlush =>
      var t := s.(tx := Resume(s.tx), answer := NoneYet);
      if t.closed then t.(answer := Refused) else t.(task := FlushLook)
    case Shutdown => s.(closed := true, task := ShutWakeRx, answer := NoneYet)
  }

  function TaskStep(s: State): State {
    match s.task
    case Outside => s
    case ReadClosed(max) => if s.closed then s.(task := Outside, answer := Finished) else s.(task := ReadStore(max))
    case ReadStore(max) => s.(rx := Store(s.rx), task := ReadRecheck(max))
    case ReadRecheck(max) =>
      if s.rxBuf != [] then DrainRx(s, max) else s.(rx := Park(s.rx), task := Outside, answer := Pending)
    case WriteAppend(buf) =>
      s.(txBuf := s.txBuf + buf, accepted := s.accepted + buf, task := Outside, answer := Took(|buf|))
    case FlushLook => if s.txBuf == [] then s.(task := Outside, answer := Flushed) else s.(task := FlushStore)
    case FlushStore => s.(tx := Store(s.tx), task := FlushRecheck)
    case FlushRecheck =>
      if s.txBuf == [] then s.(task := Outside, answer := Flushed)
      else s.(tx := Park(s.tx), task := Outside, answer := Pending)
    case ShutWakeRx => s.(rx := Wake(s.rx), task := ShutWakeTx)
    case ShutWakeTx => s.(tx := Wake(s.tx), task := Outside, answer := ShutDown)
  }

  function Step(s: State, a: Action): State {
    match a
    case PumpMoves(below) => PumpStep(s, below)
    case TaskCalls(call) => if s.task.Outside? then Begin(s, call) else s
    case TaskMoves => TaskStep(s)
  }

  function Run(actions: seq<Action>): State {
    if actions == [] then START else Step(Run(Init(actions)), Last(actions))
  }

  // ---------- what every interleaving keeps ----------

  /** Bytes the pump took from the transmit queue and has not written. */
  function OutHand(p: PumpAt): seq<byte> {
    match p
    case Write(out) => out
    case FailClose(out) => out
    case FailWakeRx(out) => out
    case FailWakeTx(out) => out
    case Done(out) => out
    case _ => []
  }

  /** Bytes the pump read and has not queued. */
  function InHand(p: PumpAt): seq<byte> {
    if p.Push? then p.got else []
  }

  /** No byte is lost, duplicated or reordered in either direction. */
  ghost predicate Conserved(s: State) {
    && s.accepted == s.sent + OutHand(s.pump) + s.txBuf
    && s.received == s.delivered + s.rxBuf + InHand(s.pump)
  }

  /** A parked reader's waker is in its slot, and if data is queued the pump is about to take it. */
  ghost predicate ReaderServed(s: State) {
    && (s.rx.parked ==> s.rx.stored && (s.rxBuf != [] ==> s.pump.WakeRx?))
    && (s.task.ReadRecheck? ==> s.rx.stored || s.rx.woken)
    && (s.task.ReadClosed? || s.task.ReadStore? || s.task.ReadRecheck? ==> !s.rx.parked)
  }

  /** The pump is between taking bytes from the transmit queue and waking the flusher. */
  ghost predicate TxWakeDue(p: PumpAt) {
    p.Write? || p.Flush? || p.WakeTx? || p.FailClose? || p.FailWakeRx? || p.FailWakeTx?
  }

  /** A parked flusher's waker is in its slot; while the pump runs, bytes are queued or the wake-up is due. */
  ghost predicate FlusherServed(s: State) {
    && (s.tx.parked ==> s.tx.stored && (s.txBuf != [] || TxWakeDue(s.pump) || s.pump.Done?))
    && (s.task.FlushRecheck? ==> s.tx.stored || s.tx.woken)
    && (s.task.FlushLook? || s.task.FlushStore? || s.task.FlushRecheck? ==> !s.tx.parked)
    && (s.pump.Write? ==> 0 < |s.pump.out| <= TX_DRAIN_MAX)
  }

  lemma PumpConserves(s: State, below: Below)
    requires Conserved(s)
    ensures Conserved(PumpStep(s, below))
  {
    match s.pump
    case Drain =>
      var n := if |s.txBuf| < TX_DRAIN_MAX then |s.txBuf| else TX_DRAIN_MAX;
      Rejoin(s.txBuf, n);
      Empty(s.sent);
      Assoc(s.sent, s.txBuf[..n], s.txBuf[n..]);
    case Write(out) => Empty(s.sent + out);
    case Read => Empty(s.delivered + s.rxBuf);
    case Push(got) =>
      Assoc(s.delivered, s.rxBuf, got);
      Empty(s.delivered + (s.rxBuf + got));
    case _ =>
  }

  lemma DrainConserves(s: State, max: nat)
    requires Conserved(s)
    ensures Conserved(DrainRx(s, max))
  {
    var n := if max < |s.rxBuf| then max else |s.rxBuf|;
    Rejoin(s.rxBuf, n);
    Assoc(s.delivered, s.rxBuf[..n], s.rxBuf[n..]);
  }

  lemma TaskConserves(s: State, a: Action)
    requires Conserved(s) && !a.PumpMoves?
    ensures Conserved(Step(s, a))
  {
    if a.TaskCalls? && a.call.PollRead? {
      DrainConserves(s.(rx := Resume(s.rx), answer := NoneYet), a.call.max);
    } else if a.TaskMoves? && s.task.ReadRecheck? {
      DrainConserves(s, s.task.max);
    } else if a.TaskMoves? && s.task.WriteAppend? {
      Assoc(s.sent + OutHand(s.pump), s.txBuf, s.task.buf);
    }
  }

  lemma PumpServesReader(s: State, below: Below)
    requires ReaderServed(s)
    ensures ReaderServed(PumpStep(s, below))
  {
  }

  lemma PumpServesFlusher(s: State, below: Below)
    requires FlusherServed(s)
    ensures FlusherServed(PumpStep(s, below))
  {
  }

  lemma CallServes(s: State, call: Call)
    requires ReaderServed(s) && FlusherServed(s) && s.task.Outside?
    ensures ReaderServed(Begin(s, call)) && FlusherServed(Begin(s, call))
  {
  }

  lemma TaskServes(s: State)
    requires ReaderServed(s) && FlusherServed(s)
    ensures ReaderServed(TaskStep(s)) && FlusherServed(TaskStep(s))
  {
    match s.task
    case Outside => case ReadClosed(_) => case ReadStore(_) => case ReadRecheck(_) => case WriteAppend(_) =>
    case FlushLook => case FlushStore => case FlushRecheck => case ShutWakeRx => case ShutWakeTx =>
  }

  /** Every interleaving conserves bytes and keeps both waiters served. */
  lemma {:induction false} EveryInterleaving(actions: seq<Action>)
    ensures var s := Run(actions); Conserved(s) && ReaderServed(s) && FlusherServed(s)
  {
    if actions != [] {
      var s, a := Run(Init(actions)), Last(actions);
      EveryInterleaving(Init(actions));
      match a {
        case PumpMoves(below) =>
          PumpServesReader(s, below);
          PumpServesFlusher(s, below);
          PumpConserves(s, below);
        case TaskCalls(call) =>
          TaskConserves(s, a);
          if s.task.Outside? {
            CallServes(s, call);
          }
        case TaskMoves =>
          TaskConserves(s, a);
          TaskServes(s);
      }
    }
  }

  /** What the reader got is a prefix of what arrived, what the stream took a prefix of what was accepted. */
  lemma NothingInvented(actions: seq<Action>)
    ensures var s := Run(actions); s.delivered <= s.received && s.sent <= s.accepted
  {
    EveryInterleaving(actions);
    var s := Run(actions);
    assert s.delivered <= s.delivered + s.rxBuf <= s.delivered + s.rxBuf + InHand(s.pump);
    assert s.sent <= s.sent + OutHand(s.pump) <= s.sent + OutHand(s.pump) + s.txBuf;
  }

  /**
  In any run, a reader parked on queued data is woken by the pump's very next move, and by
  nothing it must do itself.
  */
  lemma ReaderWokenNext(actions: seq<Action>, below: Below)
    requires Run(actions).rx.parked && Run(actions).rxBuf != []
    ensures !PumpStep(Run(actions), below).rx.parked
  {
    EveryInterleaving(actions);
  }

  /** An upper bound on the pump's moves until it next wakes the flusher, if there is something to send. */
  function MovesToWake(p: PumpAt): nat {
    match p
    case Read => 10
    case Push(_) => 9
    case WakeRx => 8
    case Top => 7
    case Drain => 6
    case Write(_) => 5
    case Flush => 4
    case FailClose(_) => 3
    case FailWakeRx(_) => 2
    case FailWakeTx(_) => 1
    case WakeTx => 1
    case Done(_) => 0
  }

  /** A flusher waits, and the pump has not stopped or been told to. */
  ghost predicate FlusherWaits(s: State) {
    && s.tx.parked && FlusherServed(s) && !s.pump.Done?
    && (s.closed ==> s.pump.FailWakeRx? || s.pump.FailWakeTx?)
  }

  lemma PumpNearsWake(s: State, below: Below)
    requires FlusherWaits(s)
    ensures var t := PumpStep(s, below);
            !t.tx.parked || (FlusherWaits(t) && MovesToWake(t.pump) < MovesToWake(s.pump))
  {
    PumpServesFlusher(s, below);
  }

  lemma TaskKeepsWake(s: State, a: Action)
    requires FlusherWaits(s) && ReaderServed(s) && !a.PumpMoves? && a != TaskCalls(Shutdown) && !s.task.ShutWakeRx?
    ensures var t := Step(s, a);
            !t.tx.parked || (FlusherWaits(t) && t.pump == s.pump && !t.task.ShutWakeRx?)
  {
    if a.TaskMoves? {
      TaskServes(s);
    } else if s.task.Outside? {
      CallServes(s, a.call);
    }
  }

  function PumpMovesIn(actions: seq<Action>): nat {
    if actions == [] then 0 else PumpMovesIn(Init(actions)) + if Last(actions).PumpMoves? then 1 else 0
  }

  /** At some point of the continuation the flusher is not parked. */
  ghost predicate WokenWithin(actions: seq<Action>, more: seq<Action>) {
    exists k | 0 <= k <= |more| :: !Run(actions + more[..k]).tx.parked
  }

  lemma WokenBefore(actions: seq<Action>, more: seq<Action>)
    requires more != [] && (WokenWithin(actions, Init(more)) || !Run(actions + more).tx.parked)
    ensures WokenWithin(actions, more)
  {
    if !Run(actions + more).tx.parked {
      TakeAll(more);
      assert !Run(actions + more[..|more|]).tx.parked;
    } else {
      var k :| 0 <= k <= |Init(more)| && !Run(actions + Init(more)[..k]).tx.parked;
      TakeOfInit(more, k);
      assert !Run(actions + more[..k]).tx.parked;
    }
  }

  ghost predicate StillWaits(s: State, left: nat) {
    FlusherWaits(s) && !s.task.ShutWakeRx? && MovesToWake(s.pump) <= left
  }

  lemma {:induction false} NearsWake(actions: seq<Action>, more: seq<Action>)
    requires StillWaits(Run(actions), 10) && TaskCalls(Shutdown) !in more && !WokenWithin(actions, more)
    ensures PumpMovesIn(more) <= 10 && StillWaits(Run(actions + more), 10 - PumpMovesIn(more))
  {
    if more == [] {
      Empty(actions);
    } else {
      var pre := Init(more);
      assert forall x | x in pre :: x in more;
      if WokenWithin(actions, pre) || !Run(actions + more).tx.parked {
        WokenBefore(actions, more);
      }
      NearsWake(actions, pre);
      assert Init(actions + more) == actions + pre && Last(actions + more) == Last(more) && Last(more) in more;
      EveryInterleaving(actions + pre);
      WaitsOn(Run(actions + pre), Last(more), 10 - PumpMovesIn(pre));
    }
  }

  lemma WaitsOn(s: State, a: Action, left: nat)
    requires StillWaits(s, left) && ReaderServed(s) && a != TaskCalls(Shutdown) && Step(s, a).tx.parked
    ensures if a.PumpMoves? then left > 0 && StillWaits(Step(s, a), left - 1) else StillWaits(Step(s, a), left)
  {
    match a
    case PumpMoves(below) => PumpNearsWake(s, below);
    case _ => TaskKeepsWake(s, a);
  }

  /**
  In any run, a flusher that waits on a pump still running is woken before the
  pump has made ten moves, however the two threads interleave and whatever the
  stream below does, as long as nobody shuts the connection down.
  */
  lemma FlusherWoken(actions: seq<Action>, more: seq<Action>)
    requires var s := Run(actions); s.tx.parked && !s.closed && !s.pump.Done? && !s.task.ShutWakeRx?
    requires TaskCalls(Shutdown) !in more && PumpMovesIn(more) >= 10
    ensures WokenWithin(actions, more)
  {
    if !WokenWithin(actions, more) {
      WaitsFirst(actions);
      NearsWake(actions, more);
    }
  }

  lemma WaitsFirst(actions: seq<Action>)
    requires var s := Run(actions); s.tx.parked && !s.closed && !s.pump.Done? && !s.task.ShutWakeRx?
    ensures StillWaits(Run(actions), 10)
  {
    EveryInterleaving(actions);
  }

  // ---------- what the answers mean ----------

  /** This action ends a poll. */
  predicate EndsPoll(s: State, a: Action) {
    && Step(s, a).task.Outside?
    && if a.TaskCalls? then s.task.Outside? else a.TaskMoves? && !s.task.Outside?
  }

  /** What an answer says was found and done at that moment. */
  ghost predicate AnswerHolds(s: State, a: Action, t: State) {
    match t.answer
    case Data(bytes) => s.rxBuf != [] && s.rxBuf == bytes + t.rxBuf && t.delivered == s.delivered + bytes
    case Finished => s.task.ReadClosed? && s.closed
    case Pending => (s.task.ReadRecheck? && s.rxBuf == []) || (s.task.FlushRecheck? && s.txBuf != [])
    case Took(n) => s.task.WriteAppend? && n == |s.task.buf| && t.accepted == s.accepted + s.task.buf
    case Flushed => (s.task.FlushLook? || s.task.FlushRecheck?) && s.txBuf == []
    case Refused => a.TaskCalls? && (a.call.PollWrite? || a.call.PollFlush?) && s.closed
    case ShutDown => s.task.ShutWakeTx?
    case NoneYet => false
  }

  lemma DrainAnswers(s: State, max: nat)
    ensures var t := DrainRx(s, max); t.answer.Data? && s.rxBuf == t.answer.bytes + t.rxBuf
  {
  }

  lemma CallAnswers(s: State, call: Call)
    requires s.task.Outside? && Begin(s, call).task.Outside?
    ensures AnswerHolds(s, TaskCalls(call), Begin(s, call))
  {
    if call.PollRead? {
      DrainAnswers(s.(rx := Resume(s.rx), answer := NoneYet), call.max);
    }
  }

  lemma MoveAnswers(s: State)
    requires !s.task.Outside? && TaskStep(s).task.Outside?
    ensures AnswerHolds(s, TaskMoves, TaskStep(s))
  {
    if s.task.ReadRecheck? {
      DrainAnswers(s, s.task.max);
    }
  }

  /** How a poll ends is true, and a poll that says nothing of bytes leaves both queues alone. */
  lemma AnswersAreTrue(s: State, a: Action)
    requires EndsPoll(s, a)
    ensures AnswerHolds(s, a, Step(s, a))
    ensures !Step(s, a).answer.Data? ==> Step(s, a).rxBuf == s.rxBuf && Step(s, a).delivered == s.delivered
    ensures !Step(s, a).answer.Took? ==> Step(s, a).txBuf == s.txBuf && Step(s, a).accepted == s.accepted
  {
    if a.TaskCalls? {
      CallAnswers(s, a.call);
    } else {
      MoveAnswers(s);
    }
  }

  /** The reader looks at the queue: at the start of a read, and again after storing its waker. */
  predicate LooksForData(s: State, a: Action, max: nat) {
    (a == TaskCalls(PollRead(max)) && s.task.Outside?) || (a == TaskMoves && s.task == ReadRecheck(max))
  }

  /** A look that finds bytes queued ends the read with as many of them as it has room for. */
  lemma ReadGives(s: State, a: Action, max: nat)
    requires LooksForData(s, a, max) && s.rxBuf != []
    ensures var t, n := Step(s, a), if max < |s.rxBuf| then max else |s.rxBuf|;
            && t.task.Outside? && t.answer == Data(s.rxBuf[..n])
            && t.delivered == s.delivered + s.rxBuf[..n] && t.rxBuf == s.rxBuf[n..]
  {
  }

  /** How many reads with room for at least one byte a continuation begins. */
  function ReadsIn(actions: seq<Action>, more: seq<Action>): nat {
    if more == [] then 0
    else
      ReadsIn(actions, Init(more)) +
      var a := Last(more);
      if BeginsRead(Run(actions + Init(more)), a) && a.call.max > 0 then 1 else 0
  }

  /** Of the bytes `due` at least those beyond the last `left` have been delivered. */
  ghost predicate Reading(due: seq<byte>, left: int, s: State) {
    due <= s.delivered || (due <= s.delivered + s.rxBuf && |due| <= |s.delivered| + left)
  }

  lemma DeliveredGrows(s: State, a: Action)
    ensures s.delivered <= Step(s, a).delivered
    ensures s.delivered + s.rxBuf <= Step(s, a).delivered + Step(s, a).rxBuf
  {
    if a.PumpMoves? && s.pump.Push? {
      Assoc(s.delivered, s.rxBuf, s.pump.got);
    } else if a.TaskCalls? && a.call.PollRead? && s.task.Outside? && s.rxBuf != [] {
      DrainKeeps(s, a.call.max);
    } else if a.TaskMoves? && s.task.ReadRecheck? && s.rxBuf != [] {
      DrainKeeps(s, s.task.max);
    }
  }

  lemma DrainKeeps(s: State, max: nat)
    ensures DrainRx(s, max).delivered + DrainRx(s, max).rxBuf == s.delivered + s.rxBuf
  {
    var n := if max < |s.rxBuf| then max else |s.rxBuf|;
    Rejoin(s.rxBuf, n);
    Assoc(s.delivered, s.rxBuf[..n], s.rxBuf[n..]);
  }

  lemma ReadingOn(due: seq<byte>, left: int, s: State, a: Action)
    requires Reading(due, left, s)
    ensures Reading(due, if BeginsRead(s, a) && a.call.max > 0 then left - 1 else left, Step(s, a))
  {
    DeliveredGrows(s, a);
    if BeginsRead(s, a) && a.call.max > 0 {
      if s.rxBuf == [] {
        Empty(s.delivered);
      } else {
        ReadGives(s, a, a.call.max);
      }
    }
  }

  lemma {:induction false} ReadsGoOn(actions: seq<Action>, more: seq<Action>)
    ensures var s := Run(actions);
            Reading(s.delivered + s.rxBuf, |s.rxBuf| - ReadsIn(actions, more), Run(actions + more))
  {
    var s := Run(actions);
    if more == [] {
      Empty(actions);
    } else {
      assert Init(actions + more) == actions + Init(more);
      ReadsGoOn(actions, Init(more));
      ReadingOn(s.delivered + s.rxBuf, |s.rxBuf| - ReadsIn(actions, Init(more)), Run(actions + Init(more)), Last(more));
    }
  }

  /**
  In every run and however it goes on, a reader that asks often enough gets
  everything that was queued for it: one read for each byte is enough, if each
  has room for one.
  */
  lemma ReaderGetsAll(actions: seq<Action>, more: seq<Action>)
    requires ReadsIn(actions, more) >= |Run(actions).rxBuf|
    ensures Run(actions).delivered + Run(actions).rxBuf <= Run(actions + more).delivered
  {
    ReadsGoOn(actions, more);
  }

  // ---------- everything accepted is sent ----------

  /** The pump's moves until it has next written, if there is something to write and nothing fails. */
  function MovesToWrite(p: PumpAt): nat {
    match p
    case Write(_) => 1
    case Drain => 2
    case Top => 3
    case WakeRx => 4
    case Push(_) => 5
    case Read => 6
    case WakeTx => 7
    case Flush => 8
    case _ => 0
  }

  /** The connection is up: not closed, and the pump not on its way out. */
  predicate IsUp(s: State) {
    !s.closed && MovesToWrite(s.pump) > 0
  }

  /** Nobody closes the connection and the stream below neither fails nor ends. */
  predicate Smooth(a: Action) {
    a != TaskCalls(Shutdown) && a != PumpMoves(Fails) && a != PumpMoves(Ok([]))
  }

  ghost predicate Sending(due: seq<byte>, left: int, s: State) {
    || due <= s.sent
    || (due <= s.accepted && 8 * (|due| - |s.sent|) + MovesToWrite(s.pump) <= left + 8)
  }

  /** A move of the pump brings its next write nearer, or is that write. */
  lemma PumpNearsWrite(s: State, below: Below)
    requires IsUp(s) && Smooth(PumpMoves(below)) && FlusherServed(s)
    ensures var t := PumpStep(s, below);
            && IsUp(t) && s.sent <= t.sent && t.accepted == s.accepted
            && (|| (s.pump.Drain? && s.txBuf == [])
                || MovesToWrite(t.pump) + 1 <= MovesToWrite(s.pump) + 8 * (|t.sent| - |s.sent|))
  {
  }

  lemma TaskLeavesPump(s: State, a: Action)
    requires IsUp(s) && Smooth(a) && !a.PumpMoves?
    ensures var t := Step(s, a); IsUp(t) && t.sent == s.sent && s.accepted <= t.accepted && t.pump == s.pump
  {
  }

  lemma SendingOn(due: seq<byte>, left: int, s: State, a: Action)
    requires IsUp(s) && Smooth(a) && Conserved(s) && FlusherServed(s) && Sending(due, left, s)
    ensures IsUp(Step(s, a)) && Sending(due, if a.PumpMoves? then left - 1 else left, Step(s, a))
  {
    match a
    case PumpMoves(below) =>
      PumpNearsWrite(s, below);
      if s.pump.Drain? && s.txBuf == [] {
        Empty(s.sent);
      }
    case _ => TaskLeavesPump(s, a);
  }

  lemma {:induction false} SendsOn(actions: seq<Action>, more: seq<Action>)
    requires IsUp(Run(actions)) && forall i | 0 <= i < |more| :: Smooth(more[i])
    ensures var s := Run(actions);
            && IsUp(Run(actions + more))
            && Sending(s.accepted, 8 * (|s.accepted| - |s.sent|) - PumpMovesIn(more), Run(actions + more))
  {
    var s := Run(actions);
    if more == [] {
      Empty(actions);
    } else {
      var pre := Init(more);
      assert Init(actions + more) == actions + pre;
      assert forall i | 0 <= i < |pre| :: pre[i] == more[i];
      SendsOn(actions, pre);
      EveryInterleaving(actions + pre);
      assert Smooth(more[|more| - 1]);
      SendingOn(s.accepted, 8 * (|s.accepted| - |s.sent|) - PumpMovesIn(pre), Run(actions + pre), Last(more));
    }
  }

  /**
  In every run, everything accepted so far is written after at most eight moves of
  the pump for each byte outstanding, whatever else happens, as long as nobody
  closes the connection and the stream below neither fails nor ends.
  */
  lemma EverythingSent(actions: seq<Action>, more: seq<Action>)
    requires IsUp(Run(actions)) && forall i | 0 <= i < |more| :: Smooth(more[i])
    requires PumpMovesIn(more) >= 8 * (|Run(actions).accepted| - |Run(actions).sent|)
    ensures Run(actions).accepted <= Run(actions + more).sent
  {
    SendsOn(actions, more);
    EveryInterleaving(actions + more);
    var s := Run(actions + more);
    assert |s.sent| <= |s.accepted|;
  }

  /** One turn of the pump takes up to sixteen kilobytes. */
  lemma DrainTakes(s: State, below: Below)
    requires s.pump.Drain?
    ensures var t := PumpStep(s, below);
            && s.txBuf == OutHand(t.pump) + t.txBuf
            && |OutHand(t.pump)| == (if |s.txBuf| < 16384 then |s.txBuf| else 16384)
            && (t.pump.Read? <==> s.txBuf == [])
  {
    Empty(s.txBuf);
  }

  // ---------- the pump keeps reading ----------

  /** The pump's moves until it next reads. */
  function MovesToRead(p: PumpAt): nat {
    match p
    case Push(_) => 7
    case WakeRx => 6
    case Top => 5
    case Drain => 4
    case Write(_) => 3
    case Flush => 2
    case WakeTx => 1
    case _ => 0
  }

  lemma NearsRead(s: State, a: Action)
    requires IsUp(s) && Smooth(a) && !s.pump.Read?
    ensures var t := Step(s, a);
            IsUp(t) && if a.PumpMoves? then MovesToRead(t.pump) < MovesToRead(s.pump) else t.pump == s.pump
  {
  }

  /** At some point of the continuation the pump reads. */
  ghost predicate ReadsWithin(actions: seq<Action>, more: seq<Action>) {
    exists k | 0 <= k <= |more| :: Run(actions + more[..k]).pump.Read?
  }

  lemma ReadsBefore(actions: seq<Action>, more: seq<Action>)
    requires more != [] && (ReadsWithin(actions, Init(more)) || Run(actions + Init(more)).pump.Read?)
    ensures ReadsWithin(actions, more)
  {
    if Run(actions + Init(more)).pump.Read? {
      TakeOfInit(more, |more| - 1);
      TakeAll(Init(more));
      assert Run(actions + more[..|more| - 1]).pump.Read?;
    } else {
      var k :| 0 <= k <= |Init(more)| && Run(actions + Init(more)[..k]).pump.Read?;
      TakeOfInit(more, k);
      assert Run(actions + more[..k]).pump.Read?;
    }
  }

  lemma {:induction false} NotYetRead(actions: seq<Action>, more: seq<Action>)
    requires IsUp(Run(actions)) && (forall i | 0 <= i < |more| :: Smooth(more[i])) && !ReadsWithin(actions, more)
    ensures IsUp(Run(actions + more)) && MovesToRead(Run(actions + more).pump) + PumpMovesIn(more) <= 7
  {
    if more == [] {
      Empty(actions);
    } else {
      var pre := Init(more);
      assert forall i | 0 <= i < |pre| :: pre[i] == more[i];
      assert Init(actions + more) == actions + pre && Smooth(more[|more| - 1]);
      if ReadsWithin(actions, pre) || Run(actions + pre).pump.Read? {
        ReadsBefore(actions, more);
      }
      NotYetRead(actions, pre);
      NearsRead(Run(actions + pre), Last(more));
    }
  }

  /** However much there is to send, the pump reads within eight of its moves, while the connection is up. */
  lemma PumpReadsSoon(actions: seq<Action>, more: seq<Action>)
    requires IsUp(Run(actions)) && forall i | 0 <= i < |more| :: Smooth(more[i])
    requires PumpMovesIn(more) >= 8
    ensures ReadsWithin(actions, more)
  {
    if !ReadsWithin(actions, more) {
      NotYetRead(actions, more);
    }
  }

  // ---------- failures ----------

  /** What the stream below does makes the pump give up: it fails, or a read comes to the end. */
  predicate GivesUp(s: State, below: Below) {
    ((s.pump.Write? || s.pump.Flush? || s.pump.Read?) && below.Fails?) || (s.pump.Read? && below == Ok([]))
  }

  /** The pump is on its way out. */
  predicate Leaving(p: PumpAt) {
    p.FailClose? || p.FailWakeRx? || p.FailWakeTx? || p.Done?
  }

  /** The pump sets out to leave exactly when it has to give up, or finds the connection closed. */
  lemma LeavesIff(s: State, below: Below)
    requires !Leaving(s.pump)
    ensures PumpStep(s, below).pump.FailClose? <==> GivesUp(s, below)
    ensures PumpStep(s, below).pump.Done? <==> s.pump.Top? && s.closed
    ensures Leaving(PumpStep(s, below).pump) <==> GivesUp(s, below) || (s.pump.Top? && s.closed)
  {
  }

  /** Its last three moves close the connection, wake the reader and wake the flusher. */
  lemma LeavingMoves(s: State, below: Below)
    requires ReaderServed(s) && FlusherServed(s)
    ensures var t := PumpStep(s, below);
            && (s.pump.FailClose? ==> t.closed && t.pump.FailWakeRx?)
            && (s.pump.FailWakeRx? ==> !t.rx.parked && t.pump.FailWakeTx?)
            && (s.pump.FailWakeTx? ==> !t.tx.parked && t.pump.Done?)
            && (Leaving(s.pump) ==> OutHand(t.pump) == OutHand(s.pump))
  {
  }

  /** A shutdown closes the connection at once and then wakes both waiters. */
  lemma ShutdownWakes(actions: seq<Action>)
    ensures var s := Run(actions);
            && (s.task.Outside? ==>
                  Step(s, TaskCalls(Shutdown)).closed && Step(s, TaskCalls(Shutdown)).task.ShutWakeRx?)
            && (s.task.ShutWakeRx? ==> !Step(s, TaskMoves).rx.parked && Step(s, TaskMoves).task.ShutWakeTx?)
            && (s.task.ShutWakeTx? ==> !Step(s, TaskMoves).tx.parked && Step(s, TaskMoves).answer == ShutDown)
  {
    EveryInterleaving(actions);
  }

  // ---------- after a close ----------

  lemma ClosedStep(s: State, a: Action)
    requires s.closed
    ensures var t := Step(s, a);
            t.closed && (!s.task.WriteAppend? ==> t.accepted == s.accepted && !t.task.WriteAppend?)
  {
  }

  lemma WaitlessStep(s: State, a: Action)
    requires s.closed && WillNotWait(s.task)
    ensures var t := Step(s, a);
            WillNotWait(t.task) && (t.rx.parked ==> s.rx.parked) && (t.tx.parked ==> s.tx.parked)
  {
  }

  lemma StoppingStep(s: State, a: Action)
    requires s.closed
    ensures var t := Step(s, a);
            if a.PumpMoves? then t.pump.Done? || MovesToStop(t.pump) < MovesToStop(s.pump) else t.pump == s.pump
  {
  }

  lemma {:induction false} ClosedStays(actions: seq<Action>, more: seq<Action>)
    requires Run(actions).closed
    ensures Run(actions + more).closed
  {
    if more == [] {
      Empty(actions);
    } else {
      assert Init(actions + more) == actions + Init(more);
      ClosedStays(actions, Init(more));
      ClosedStep(Run(actions + Init(more)), Last(more));
    }
  }

  /** Once closed, with no write under way, nothing more is ever accepted. */
  lemma {:induction false} ClosedAcceptsNothing(actions: seq<Action>, more: seq<Action>)
    requires Run(actions).closed && !Run(actions).task.WriteAppend?
    ensures Run(actions + more).accepted == Run(actions).accepted && !Run(actions + more).task.WriteAppend?
  {
    if more == [] {
      Empty(actions);
    } else {
      assert Init(actions + more) == actions + Init(more);
      ClosedStays(actions, Init(more));
      ClosedAcceptsNothing(actions, Init(more));
      ClosedStep(Run(actions + Init(more)), Last(more));
    }
  }

  /** No poll under way has still to decide whether to wait. */
  predicate WillNotWait(t: TaskAt) {
    t.Outside? || t.ReadClosed? || t.ShutWakeRx? || t.ShutWakeTx? || t.WriteAppend?
  }

  /** Once closed, no poll that begins afterwards waits: a parked waiter was parked before, and stayed. */
  lemma {:induction false} ClosedNeverWaits(actions: seq<Action>, more: seq<Action>)
    requires Run(actions).closed && WillNotWait(Run(actions).task)
    ensures var s, t := Run(actions), Run(actions + more);
            WillNotWait(t.task) && (t.rx.parked ==> s.rx.parked) && (t.tx.parked ==> s.tx.parked)
  {
    if more == [] {
      Empty(actions);
    } else {
      assert Init(actions + more) == actions + Init(more);
      ClosedStays(actions, Init(more));
      ClosedNeverWaits(actions, Init(more));
      WaitlessStep(Run(actions + Init(more)), Last(more));
    }
  }

  /** The pump's moves until it has stopped, once the connection is closed. */
  function MovesToStop(p: PumpAt): nat {
    match p
    case Drain => 9
    case Write(_) => 8
    case Flush => 7
    case WakeTx => 6
    case Read => 5
    case Push(_) => 3
    case WakeRx => 2
    case Top => 1
    case FailClose(_) => 3
    case FailWakeRx(_) => 2
    case FailWakeTx(_) => 1
    case Done(_) => 0
  }

  /** Once closed, the pump stops within nine moves of its own, whatever the stream below does. */
  lemma {:induction false} ClosedPumpStops(actions: seq<Action>, more: seq<Action>)
    requires Run(actions).closed
    ensures MovesToStop(Run(actions + more).pump) + PumpMovesIn(more) <= 9 || Run(actions + more).pump.Done?
  {
    if more == [] {
      Empty(actions);
    } else {
      assert Init(actions + more) == actions + Init(more);
      ClosedStays(actions, Init(more));
      ClosedPumpStops(actions, Init(more));
      StoppingStep(Run(actions + Init(more)), Last(more));
    }
  }

  // ---------- what the handshake does not give ----------

  /** When a flush reports success, what was accepted has been written exactly up to the bytes the pump still holds. */
  lemma FlushedMeansTaken(actions: seq<Action>)
    requires Run(actions).txBuf == []
    ensures var s := Run(actions);
            s.accepted == s.sent + OutHand(s.pump) && (s.sent == s.accepted <==> OutHand(s.pump) == [])
  {
    EveryInterleaving(actions);
    var s := Run(actions);
    Empty(s.sent + OutHand(s.pump));
    assert |s.accepted| == |s.sent| + |OutHand(s.pump)|;
    Empty(s.sent);
  }

  /** So that is what a flush that reports success has established. */
  lemma FlushAnswers(actions: seq<Action>, a: Action)
    requires EndsPoll(Run(actions), a) && Run(actions + [a]).answer == Flushed
    ensures var t := Run(actions + [a]); t.accepted == t.sent + OutHand(t.pump)
  {
    OneMore(actions, a);
    AnswersAreTrue(Run(actions), a);
    FlushedMeansTaken(actions + [a]);
  }

  lemma OneMore(actions: seq<Action>, a: Action)
    ensures Run(actions + [a]) == Step(Run(actions), a)
  {
    assert Init(actions + [a]) == actions;
  }

  /** A run that reaches `s`, one action longer. */
  lemma Reach(actions: seq<Action>, s: State, a: Action, t: State) returns (longer: seq<Action>)
    requires Run(actions) == s && Step(s, a) == t
    ensures longer == actions + [a] && Run(longer) == t
  {
    longer := actions + [a];
    OneMore(actions, a);
  }

  /** A flush does report success with bytes unwritten: write, let the pump take them, flush. */
  lemma FlushReadyTooEarly(x: byte) returns (actions: seq<Action>)
    ensures var s, t := Run(actions), Run(actions + [TaskMoves]);
            && s.task.FlushLook? && s.txBuf == []
            && t.task.Outside? && t.answer == Flushed && !t.closed
            && t.accepted == [x] && t.sent == []
  {
    var written := START.(txBuf := [x], accepted := [x], answer := Took(1));
    var taken := written.(pump := Write([x]), txBuf := []);
    actions := Reach([], START, TaskCalls(PollWrite([x])), START.(task := WriteAppend([x])));
    actions := Reach(actions, START.(task := WriteAppend([x])), TaskMoves, written);
    actions := Reach(actions, written, PumpMoves(TimeOut), written.(pump := Drain));
    assert [x][..1] == [x];
    actions := Reach(actions, written.(pump := Drain), PumpMoves(TimeOut), taken);
    actions := Reach(actions, taken, TaskCalls(PollFlush), taken.(task := FlushLook, answer := NoneYet));
    OneMore(actions, TaskMoves);
  }

  // ---------- a close can miss a reader ----------

  predicate BeginsRead(s: State, a: Action) {
    a.TaskCalls? && a.call.PollRead? && s.task.Outside?
  }

  /** The poll finds nothing on its second look and gives up. */
  predicate Pends(s: State, a: Action) {
    a.TaskMoves? && s.task.ReadRecheck? && s.rxBuf == []
  }

  /** Somebody wakes whoever is in the reader's slot. */
  predicate WakesReader(s: State, a: Action) {
    || (a.PumpMoves? && (s.pump.WakeRx? || s.pump.FailWakeRx?))
    || (a.TaskMoves? && s.task.ShutWakeRx?)
  }

  /** The last read of a run returned Pending. */
  predicate LastReadPended(actions: seq<Action>) {
    actions != [] &&
    var s := Run(Init(actions));
    !BeginsRead(s, Last(actions)) && (LastReadPended(Init(actions)) || Pends(s, Last(actions)))
  }

  /** Since the last read of a run began, some wake-up found a waker in the slot. */
  predicate WokenSinceRead(actions: seq<Action>) {
    actions != [] &&
    var s := Run(Init(actions));
    !BeginsRead(s, Last(actions)) && (WokenSinceRead(Init(actions)) || (WakesReader(s, Last(actions)) && s.rx.stored))
  }

  lemma WokenStep(s: State, a: Action)
    ensures Step(s, a).rx.woken <==> !BeginsRead(s, a) && (s.rx.woken || (WakesReader(s, a) && s.rx.stored))
  {
  }

  lemma ParkedStep(s: State, a: Action)
    requires ReaderServed(s) && (s.rx.parked ==> !s.rx.woken)
    ensures Step(s, a).rx.parked <==>
            !BeginsRead(s, a) && !Step(s, a).rx.woken && (s.rx.parked || Pends(s, a))
  {
  }

  lemma {:induction false} WokenIff(actions: seq<Action>)
    ensures Run(actions).rx.woken <==> WokenSinceRead(actions)
  {
    if actions != [] {
      WokenIff(Init(actions));
      WokenStep(Run(Init(actions)), Last(actions));
    }
  }

  /**
  In every run, a reader is parked exactly if its last read gave up and every wake-up since
  that read began found the slot empty.
  */
  lemma {:induction false} ReaderParkedIff(actions: seq<Action>)
    ensures Run(actions).rx.parked <==> LastReadPended(actions) && !WokenSinceRead(actions)
  {
    WokenIff(actions);
    if actions != [] {
      ReaderParkedIff(Init(actions));
      WokenIff(Init(actions));
      EveryInterleaving(Init(actions));
      ParkedStep(Run(Init(actions)), Last(actions));
    }
  }

  predicate NoCalls(actions: seq<Action>) {
    forall i | 0 <= i < |actions| :: !actions[i].TaskCalls?
  }

  lemma {:induction false} StoppedStays(actions: seq<Action>, more: seq<Action>)
    requires Run(actions).pump.Done? && Run(actions).task.Outside? && NoCalls(more)
    ensures Run(actions + more) == Run(actions)
  {
    if more == [] {
      Empty(actions);
    } else {
      assert Init(actions + more) == actions + Init(more);
      StoppedStays(actions, Init(more));
      assert !Last(more).TaskCalls?;
    }
  }

  /**
  A close can miss a reader. In every run in which the pump has stopped and no
  poll is under way, the reader stays parked for good, whatever moves are still
  made, exactly if its last read gave up and every wake-up since that read
  began found the slot empty. A wake-up that comes while the reader is between
  its look at the flag and storing its waker is such a one.
  */
  lemma CloseMissesReaderIff(actions: seq<Action>)
    requires Run(actions).pump.Done? && Run(actions).task.Outside?
    ensures (forall more | NoCalls(more) :: Run(actions + more).rx.parked) <==>
            LastReadPended(actions) && !WokenSinceRead(actions)
  {
    ReaderParkedIff(actions);
    forall more | NoCalls(more)
      ensures Run(actions + more) == Run(actions)
    {
      StoppedStays(actions, more);
    }
    assert NoCalls([]) && actions + [] == actions;
  }

  /** The reader has looked at the flag while the pump is reading. */
  lemma ReaderLooked() returns (actions: seq<Action>)
    ensures Run(actions) == START.(pump := Read, task := ReadStore(1))
  {
    var reading := START.(pump := Read);
    actions := Reach([], START, PumpMoves(TimeOut), START.(pump := Drain));
    actions := Reach(actions, START.(pump := Drain), PumpMoves(TimeOut), reading);
    actions := Reach(actions, reading, TaskCalls(PollRead(1)), reading.(task := ReadClosed(1)));
    actions := Reach(actions, reading.(task := ReadClosed(1)), TaskMoves, reading.(task := ReadStore(1)));
  }

  /** Then the stream fails, and the pump closes and wakes nobody. */
  lemma PumpLeft(before: seq<Action>, looked: State) returns (actions: seq<Action>)
    requires Run(before) == looked == START.(pump := Read, task := ReadStore(1))
    ensures Run(actions) == looked.(pump := Done([]), closed := true)
  {
    var stopped := looked.(closed := true);
    actions := Reach(before, looked, PumpMoves(Fails), looked.(pump := FailClose([])));
    actions := Reach(actions, looked.(pump := FailClose([])), PumpMoves(Fails), stopped.(pump := FailWakeRx([])));
    actions := Reach(actions, stopped.(pump := FailWakeRx([])), PumpMoves(Fails), stopped.(pump := FailWakeTx([])));
    actions := Reach(actions, stopped.(pump := FailWakeTx([])), PumpMoves(Fails), stopped.(pump := Done([])));
  }

  /**
  Such a miss happens: the reader looks at the flag while the pump is reading, the stream
  fails, and the wake-up comes too soon.
  */
  lemma CloseMissesReaderReachable() returns (actions: seq<Action>)
    ensures Run(actions).pump.Done? && Run(actions).task.Outside? && Run(actions).rx.parked
    ensures LastReadPended(actions) && !WokenSinceRead(actions)
  {
    var looked := START.(pump := Read, task := ReadStore(1));
    actions := ReaderLooked();
    actions := PumpLeft(actions, looked);
    var stopped := looked.(pump := Done([]), closed := true);
    var stored := stopped.(rx := Slot(true, false, false), task := ReadRecheck(1));
    actions := Reach(actions, stopped, TaskMoves, stored);
    var parked := stored.(rx := Slot(true, false, true), task := Outside, answer := Pending);
    actions := Reach(actions, stored, TaskMoves, parked);
    ReaderParkedIff(actions);
  }
}
