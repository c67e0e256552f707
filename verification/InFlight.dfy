/**
The lock-free reservation of in-flight upload bytes.

Any number of connections reserve bytes on one shared counter with a
compare-and-swap loop and give them back when they end. One action is one
access to the counter; the interleaving, the sizes and spurious failures of the
weak compare-and-swap are the environment's choice. The counter is a 64-bit
word whose subtraction wraps.
*/
module InFlight {
  import opened Common

  const WORD := 0x1_0000_0000_0000_0000

  /** A connection: not started, holding a value it read, holding a reservation, refused, or finished. */
  datatype Conn =
    | Idle
    | Trying(bytes: nat, current: nat)
    | Holding(bytes: nat)
    | Refused(bytes: nat)
    | Released

  datatype State = State(counter: nat, conns: seq<Conn>)

  datatype Action =
    | Load(who: nat, bytes: nat)
    | Attempt(who: nat, spurious: bool)
    | Drop(who: nat)

  function WrapSub(a: nat, b: nat): nat {
    (a - b) % WORD
  }

  function Step(s: State, a: Action, maxSize: nat): State {
    if a.who >= |s.conns| then s
    else
      match a
      case Load(who, bytes) =>
        if s.conns[who].Idle? && bytes < WORD then s.(conns := s.conns[who := Trying(bytes, s.counter)]) else s
      case Attempt(who, spurious) =>
        (match s.conns[who]
         case Trying(bytes, current) =>
           var next := current + bytes;
           if next >= WORD || next > maxSize then s.(conns := s.conns[who := Refused(bytes)])
           else if s.counter == current && !spurious then State(next, s.conns[who := Holding(bytes)])
           else s.(conns := s.conns[who := Trying(bytes, s.counter)])
         case _ => s)
      case Drop(who) =>
        (match s.conns[who]
         case Holding(bytes) => State(WrapSub(s.counter, bytes), s.conns[who := Released])
         case _ => s)
  }

  function Start(n: nat): State {
    State(0, seq(n, _ => Idle))
  }

  function Run(n: nat, actions: seq<Action>, maxSize: nat): State {
    if actions == [] then Start(n) else Step(Run(n, Init(actions), maxSize), Last(actions), maxSize)
  }

  function Held(c: Conn): nat {
    if c.Holding? then c.bytes else 0
  }

  /** The bytes of all live reservations. */
  function Total(conns: seq<Conn>): nat {
    if conns == [] then 0 else Total(Init(conns)) + Held(Last(conns))
  }

  lemma {:induction false} TotalUpdate(conns: seq<Conn>, i: nat, c: Conn)
    requires i < |conns|
    ensures Total(conns[i := c]) == Total(conns) - Held(conns[i]) + Held(c)
    ensures Held(conns[i]) <= Total(conns)
  {
    if i == |conns| - 1 {
      assert Init(conns[i := c]) == Init(conns);
    } else {
      assert Init(conns[i := c]) == Init(conns)[i := c];
      TotalUpdate(Init(conns), i, c);
    }
  }

  lemma {:induction false} TotalIdle(n: nat)
    ensures Total(Start(n).conns) == 0
  {
    if n > 0 {
      assert Init(Start(n).conns) == Start(n - 1).conns;
      TotalIdle(n - 1);
    }
  }

  /**
  In every interleaving of any number of connections the counter is exactly the
  sum of the live reservations, never exceeds the limit, and no release wraps.
  */
  lemma {:induction false} CounterIsSum(n: nat, actions: seq<Action>, maxSize: nat)
    requires maxSize < WORD
    ensures var s := Run(n, actions, maxSize); s.counter == Total(s.conns) && s.counter <= maxSize
    ensures forall i | 0 <= i < |Run(n, actions, maxSize).conns| ::
              Held(Run(n, actions, maxSize).conns[i]) <= Run(n, actions, maxSize).counter
  {
    if actions == [] {
      TotalIdle(n);
    } else {
      CounterIsSum(n, Init(actions), maxSize);
      StepKeepsSum(Run(n, Init(actions), maxSize), Last(actions), maxSize);
    }
    var s := Run(n, actions, maxSize);
    forall i | 0 <= i < |s.conns| ensures Held(s.conns[i]) <= Total(s.conns) {
      TotalUpdate(s.conns, i, s.conns[i]);
    }
  }

  lemma StepKeepsSum(s: State, a: Action, maxSize: nat)
    requires s.counter == Total(s.conns) && s.counter <= maxSize < WORD
    ensures var t := Step(s, a, maxSize); t.counter == Total(t.conns) && t.counter <= maxSize
  {
    if a.who < |s.conns| {
      TotalUpdate(s.conns, a.who, Step(s, a, maxSize).conns[a.who]);
    }
  }

  /** A reservation is refused only for want of room: the bytes did not fit beside a total that was really reserved. */
  lemma {:induction false} ValuesWereReal(n: nat, actions: seq<Action>, maxSize: nat, i: nat)
    requires i < |Run(n, actions, maxSize).conns|
    requires maxSize < WORD
    ensures var c := Run(n, actions, maxSize).conns[i];
            c.Trying? ==> exists k | 0 <= k <= |actions| :: c.current == Run(n, actions[..k], maxSize).counter
    ensures var c := Run(n, actions, maxSize).conns[i];
            c.Refused? ==> exists k | 0 <= k <= |actions| :: Run(n, actions[..k], maxSize).counter + c.bytes > maxSize
  {
    if actions != [] {
      var before := Run(n, Init(actions), maxSize);
      ValuesWereReal(n, Init(actions), maxSize, i);
      forall k | 0 <= k <= |Init(actions)| ensures Init(actions)[..k] == actions[..k] {}
      assert actions[..|actions| - 1] == Init(actions);
      if before.conns[i].Trying? {
        var k :| 0 <= k <= |Init(actions)| && before.conns[i].current == Run(n, Init(actions)[..k], maxSize).counter;
        assert before.conns[i].current == Run(n, actions[..k], maxSize).counter;
      } else if before.conns[i].Refused? {
        var k :| 0 <= k <= |Init(actions)| &&
                 Run(n, Init(actions)[..k], maxSize).counter + before.conns[i].bytes > maxSize;
        assert Run(n, actions[..k], maxSize).counter + before.conns[i].bytes > maxSize;
      }
      assert before.counter == Run(n, actions[..|actions| - 1], maxSize).counter;
    }
  }

  /** Undisturbed and without a spurious failure, an attempt succeeds exactly when the bytes fit. */
  lemma AttemptSucceedsIff(n: nat, actions: seq<Action>, maxSize: nat, who: nat, bytes: nat)
    requires maxSize < WORD && bytes < WORD
    requires who < |Run(n, actions, maxSize).conns| && Run(n, actions, maxSize).conns[who].Idle?
    ensures var s := Run(n, actions, maxSize);
            var t := Step(Step(s, Load(who, bytes), maxSize), Attempt(who, false), maxSize);
            && (t.conns[who] == Holding(bytes) <==> Total(s.conns) + bytes <= maxSize)
            && (t.conns[who] == Refused(bytes) <==> Total(s.conns) + bytes > maxSize)
            && Step(t, Drop(who), maxSize).counter == s.counter
  {
    CounterIsSum(n, actions, maxSize);
  }
}
