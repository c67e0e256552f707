/**
The interactive login loop.

Each attempt opens a fresh connection and registers, carrying the pending
approval URL as a follow-up once the control plane has handed one out. The
environment decides what every attempt meets. Which exchanges take place, what
decides the outcome and which key is current are functions of the attempts, and
the theorems hold for every sequence of them.
*/
module Login {
  import opened Common
  import opened NetMap
  import opened Lifecycle

  datatype RegisterResponse = RegisterResponse(
    machineAuthorized: bool,
    authUrl: string,
    nodeKeyExpired: bool,
    error: string)

  datatype ControlError = ServerError | AuthRejected(url: string) | NotAuthorized | ConnFailed | StoreFailed

  datatype RegistrationOutcome = RegistrationOutcome(
    machineAuthorized: bool,
    nodeKeyExpired: bool,
    pendingAuthUrl: Option<string>)

  datatype Registration = Ok(outcome: RegistrationOutcome) | Err(error: ControlError)

  function InterpretRegisterResponse(parsed: RegisterResponse, keySupplied: bool): (r: Registration)
    // Authorization is reported exactly when the server granted it without an error.
    ensures r.Ok? && r.outcome.machineAuthorized <==> parsed.error == "" && parsed.machineAuthorized
    // A URL is handed on exactly when it can be acted on, and it is the server's own.
    ensures r.Ok? && r.outcome.pendingAuthUrl.Some? <==>
            parsed.error == "" && parsed.authUrl != "" && !parsed.machineAuthorized && !keySupplied
    ensures r.Ok? && r.outcome.pendingAuthUrl.Some? ==> r.outcome.pendingAuthUrl.value == parsed.authUrl
    // Whether the key expired is passed on as the server said it.
    ensures r.Ok? ==> r.outcome.nodeKeyExpired == parsed.nodeKeyExpired
    // An error is the server's, a supplied key it did not take, or a refusal with nothing to do about it.
    ensures r.Err? && r.error == ServerError <==> parsed.error != ""
    ensures r.Err? && r.error.AuthRejected? <==>
            parsed.error == "" && parsed.authUrl != "" && !parsed.machineAuthorized && keySupplied
    ensures r.Err? && r.error == NotAuthorized <==>
            parsed.error == "" && parsed.authUrl == "" && !parsed.machineAuthorized && !parsed.nodeKeyExpired
    ensures r.Err? ==> r.error == ServerError || r.error == AuthRejected(parsed.authUrl) || r.error == NotAuthorized
  {
    if parsed.error != "" then Err(ServerError)
    else if parsed.authUrl != "" && !parsed.machineAuthorized then
      if keySupplied then Err(AuthRejected(parsed.authUrl))
      else Ok(RegistrationOutcome(false, parsed.nodeKeyExpired, Some(parsed.authUrl)))
    else if !parsed.machineAuthorized then
      if parsed.nodeKeyExpired then Ok(RegistrationOutcome(false, true, None))
      else Err(NotAuthorized)
    else Ok(RegistrationOutcome(true, parsed.nodeKeyExpired, None))
  }

  datatype LoginAbort = Parked | LoggedOut | Shutdown

  /** `response` is `None` when the request itself fails; `newKey` is the new key, `None` when storing it fails. */
  datatype Attempt = Attempt(
    abort: Option<LoginAbort>,
    connOk: bool,
    response: Option<RegisterResponse>,
    newKey: Option<NodeKey>)

  datatype LoginOutcome =
    | Authorized
    | Aborted(reason: LoginAbort)
    | Errored(error: ControlError)
    | Waiting

  /** One register request that went out, and what came back. */
  datatype Exchange = Exchange(key: NodeKey, followup: Option<string>, result: Registration)

  // ---------- reading a log ----------

  predicate Expired(e: Exchange) {
    e.result.Ok? && e.result.outcome.nodeKeyExpired && !e.result.outcome.machineAuthorized
  }

  predicate Grants(e: Exchange) {
    e.result.Ok? && e.result.outcome.machineAuthorized
  }

  /** The exchange left a URL to follow up on. */
  predicate Offers(e: Exchange, url: string) {
    e.result.Ok? && !Expired(e) && e.result.outcome.pendingAuthUrl == Some(url)
  }

  predicate OffersNone(e: Exchange) {
    !(e.result.Ok? && !Expired(e) && e.result.outcome.pendingAuthUrl.Some?)
  }

  /**
  A URL still stands after a log: it was offered for `key`, and no exchange since expired the
  key or offered another.
  */
  ghost predicate Standing(log: seq<Exchange>, key: NodeKey, url: string) {
    exists j | 0 <= j < |log| :: OfferedAt(log, j, key, url)
  }

  ghost predicate OfferedAt(log: seq<Exchange>, j: nat, key: NodeKey, url: string)
    requires j < |log|
  {
    && Offers(log[j], url)
    && (forall i | j <= i < |log| :: log[i].key == key)
    && (forall i | j < i < |log| :: !Expired(log[i]) && OffersNone(log[i]))
  }

  /** No URL stands: none was offered since the last key expired. */
  ghost predicate NothingStanding(log: seq<Exchange>) {
    exists j | 0 <= j <= |log| :: ClearFrom(log, j)
  }

  ghost predicate ClearFrom(log: seq<Exchange>, j: nat)
    requires j <= |log|
  {
    (j == 0 || Expired(log[j - 1])) && forall i | j <= i < |log| :: OffersNone(log[i])
  }

  /** Every request carries exactly the URL that stands for its key, and none when none stands. */
  ghost predicate WellFollowed(log: seq<Exchange>) {
    log == [] || (WellFollowed(Init(log)) && FollowsUp(Init(log), Last(log).key, Last(log).followup))
  }

  ghost predicate FollowsUp(log: seq<Exchange>, key: NodeKey, followup: Option<string>) {
    match followup
    case None => NothingStanding(log)
    case Some(url) => Standing(log, key, url)
  }

  /** The key changes only after it expired. */
  ghost predicate KeysSteady(log: seq<Exchange>, key: NodeKey) {
    && (forall i | 0 < i < |log| :: !Expired(log[i - 1]) ==> log[i].key == log[i - 1].key)
    && (log != [] && !Expired(Last(log)) ==> key == Last(log).key)
  }

  /** In an orderly log every follow-up was offered earlier to the same key, and never right after that key expired. */
  lemma {:induction false} FollowupsWereOffered(log: seq<Exchange>, i: nat)
    requires WellFollowed(log) && i < |log|
    ensures log[i].followup.Some? ==>
              exists j | 0 <= j < i :: log[j].key == log[i].key && Offers(log[j], log[i].followup.value)
    ensures i > 0 && Expired(log[i - 1]) ==> log[i].followup.None?
  {
    if i < |log| - 1 {
      FollowupsWereOffered(Init(log), i);
    } else if log[i].followup.Some? {
      var j :| 0 <= j < i && OfferedAt(Init(log), j, log[i].key, log[i].followup.value);
      assert Init(log)[j].key == log[i].key && Offers(log[j], log[i].followup.value);
      assert !Expired(Init(log)[i - 1]);
    }
  }

  // ---------- what the attempts lead to ----------

  /** A request goes out. */
  predicate Connects(a: Attempt) {
    a.abort.None? && a.connOk
  }

  function ResultOf(keySupplied: bool, a: Attempt): Registration {
    if a.response.Some? then InterpretRegisterResponse(a.response.value, keySupplied) else Err(ConnFailed)
  }

  /** The attempt finds the node key expired. */
  predicate FindsExpired(keySupplied: bool, a: Attempt) {
    Connects(a) && ResultOf(keySupplied, a).Ok?
    && ResultOf(keySupplied, a).outcome.nodeKeyExpired && !ResultOf(keySupplied, a).outcome.machineAuthorized
  }

  /** What an attempt decides by itself, whatever came before it. */
  function Decides(keySupplied: bool, a: Attempt): Option<LoginOutcome> {
    var result := ResultOf(keySupplied, a);
    if a.abort.Some? then Some(Aborted(a.abort.value))
    else if !a.connOk then (if keySupplied then Some(Errored(ConnFailed)) else None)
    else if result.Ok? && result.outcome.machineAuthorized then Some(Authorized)
    else if FindsExpired(keySupplied, a) then (if a.newKey.None? then Some(Errored(StoreFailed)) else None)
    else if !keySupplied then None
    else Some(Errored(if result.Err? then result.error else NotAuthorized))
  }

  /** The key in the store after some attempts: the one made when it last expired. */
  function KeyAfter(keySupplied: bool, key0: NodeKey, attempts: seq<Attempt>): NodeKey {
    if attempts == [] then key0
    else if FindsExpired(keySupplied, Last(attempts)) && Last(attempts).newKey.Some? then Last(attempts).newKey.value
    else KeyAfter(keySupplied, key0, Init(attempts))
  }

  function UrlAfter(url: Option<string>, e: Exchange): Option<string> {
    if Expired(e) then None
    else if e.result.Ok? && e.result.outcome.pendingAuthUrl.Some? then e.result.outcome.pendingAuthUrl
    else url
  }

  /** The URL to follow up on after some exchanges: the last one offered, unless the key expired since. */
  function StandingUrl(log: seq<Exchange>): Option<string> {
    if log == [] then None else UrlAfter(StandingUrl(Init(log)), Last(log))
  }

  /** The exchanges of some attempts: one for each that connects, with the current key and the standing URL. */
  function Exchanges(keySupplied: bool, key0: NodeKey, attempts: seq<Attempt>): seq<Exchange> {
    if attempts == [] then []
    else
      var before := Exchanges(keySupplied, key0, Init(attempts));
      if Connects(Last(attempts)) then
        before + [Exchange(KeyAfter(keySupplied, key0, Init(attempts)),
                           StandingUrl(before), ResultOf(keySupplied, Last(attempts)))]
      else before
  }

  ghost predicate NoneDecides(keySupplied: bool, attempts: seq<Attempt>) {
    forall i | 0 <= i < |attempts| :: Decides(keySupplied, attempts[i]).None?
  }

  // ---------- in the server's words ----------

  /** The server's answer to an attempt, if there was one. */
  function Said(a: Attempt): Option<RegisterResponse> {
    if Connects(a) then a.response else None
  }

  /** The server says that the node key has expired, and nothing else is wrong. */
  predicate SaysExpired(keySupplied: bool, a: Attempt) {
    && Said(a).Some? && Said(a).value.error == "" && !Said(a).value.machineAuthorized && Said(a).value.nodeKeyExpired
    && (keySupplied ==> Said(a).value.authUrl == "")
  }

  predicate SaysGranted(a: Attempt) {
    Said(a).Some? && Said(a).value.error == "" && Said(a).value.machineAuthorized
  }

  lemma ExpiredIff(keySupplied: bool, a: Attempt)
    ensures FindsExpired(keySupplied, a) <==> SaysExpired(keySupplied, a)
  {
  }

  /**
  What decides an attempt: an abort, the server's grant, a new key that cannot be
  stored, and with an auth key anything else but an expired key. Without one,
  everything else leaves the wait going on.
  */
  lemma DecidesIff(keySupplied: bool, a: Attempt)
    ensures var d := Decides(keySupplied, a);
            && (forall why :: d == Some(Aborted(why)) <==> a.abort == Some(why))
            && (d == Some(Authorized) <==> SaysGranted(a))
            && (d == Some(Errored(StoreFailed)) <==> SaysExpired(keySupplied, a) && a.newKey.None?)
            && (d.None? <==>
                  && a.abort.None? && !SaysGranted(a)
                  && (if keySupplied then SaysExpired(true, a) && a.newKey.Some?
                      else SaysExpired(false, a) ==> a.newKey.Some?))
  {
  }

  /** After any attempts the key is the one made at the latest expiry, and the first key if there was none. */
  lemma {:induction false} KeyIsLatest(keySupplied: bool, key0: NodeKey, attempts: seq<Attempt>)
    ensures var key := KeyAfter(keySupplied, key0, attempts);
            || (key == key0 && forall j | 0 <= j < |attempts| :: !Rotates(keySupplied, attempts[j]))
            || exists i | 0 <= i < |attempts| ::
                 && Rotates(keySupplied, attempts[i]) && Some(key) == attempts[i].newKey
                 && forall j | i < j < |attempts| :: !Rotates(keySupplied, attempts[j])
  {
    if attempts != [] {
      var pre, a := Init(attempts), Last(attempts);
      ExpiredIff(keySupplied, a);
      assert forall j | 0 <= j < |pre| :: pre[j] == attempts[j];
      if Rotates(keySupplied, a) {
        assert attempts[|attempts| - 1] == a;
      } else {
        KeyIsLatest(keySupplied, key0, pre);
        var key := KeyAfter(keySupplied, key0, pre);
        if i :| 0 <= i < |pre| && Rotates(keySupplied, pre[i]) && Some(key) == pre[i].newKey
                && forall j | i < j < |pre| :: !Rotates(keySupplied, pre[j]) {
          assert Rotates(keySupplied, attempts[i]);
        }
      }
    }
  }

  /** An attempt at which the key is replaced. */
  predicate Rotates(keySupplied: bool, a: Attempt) {
    SaysExpired(keySupplied, a) && a.newKey.Some?
  }

  // ---------- for every sequence of attempts ----------

  /** The recursive standing URL is the last offer since the key last expired. */
  lemma {:induction false} StandingUrlStands(log: seq<Exchange>, key: NodeKey)
    requires KeysSteady(log, key)
    ensures FollowsUp(log, key, StandingUrl(log))
  {
    if log == [] {
      assert ClearFrom(log, 0);
    } else if Expired(Last(log)) {
      assert ClearFrom(log, |log|);
    } else if Last(log).result.Ok? && Last(log).result.outcome.pendingAuthUrl.Some? {
      assert OfferedAt(log, |log| - 1, key, StandingUrl(log).value);
    } else {
      StandingUrlStands(Init(log), key);
      FollowsFurther(log, key);
    }
  }

  lemma FollowsFurther(log: seq<Exchange>, key: NodeKey)
    requires log != [] && Last(log).key == key && !Expired(Last(log)) && OffersNone(Last(log))
    requires FollowsUp(Init(log), key, StandingUrl(Init(log))) && StandingUrl(log) == StandingUrl(Init(log))
    ensures FollowsUp(log, key, StandingUrl(log))
  {
    if StandingUrl(log).None? {
      StaysClear(log);
    } else {
      StaysStanding(log, key, StandingUrl(log).value);
    }
  }

  lemma StaysClear(log: seq<Exchange>)
    requires log != [] && NothingStanding(Init(log)) && OffersNone(Last(log))
    ensures NothingStanding(log)
  {
    var j :| 0 <= j <= |Init(log)| && ClearFrom(Init(log), j);
    assert ClearFrom(log, j);
  }

  lemma StaysStanding(log: seq<Exchange>, key: NodeKey, url: string)
    requires log != [] && Standing(Init(log), key, url)
    requires Last(log).key == key && !Expired(Last(log)) && OffersNone(Last(log))
    ensures Standing(log, key, url)
  {
    var j :| 0 <= j < |Init(log)| && OfferedAt(Init(log), j, key, url);
    assert OfferedAt(log, j, key, url);
  }

  /**
  In every login, requests carry exactly the standing URL of their key, and the key moves on
  only when it expired.
  */
  lemma {:induction false} EveryLoginFollowsUp(keySupplied: bool, key0: NodeKey, attempts: seq<Attempt>)
    ensures var log := Exchanges(keySupplied, key0, attempts);
            WellFollowed(log) && KeysSteady(log, KeyAfter(keySupplied, key0, attempts))
    ensures var log := Exchanges(keySupplied, key0, attempts);
            if log == [] then KeyAfter(keySupplied, key0, attempts) == key0 else log[0].key == key0
  {
    if attempts != [] {
      var pre := Init(attempts);
      EveryLoginFollowsUp(keySupplied, key0, pre);
      var log := Exchanges(keySupplied, key0, pre);
      StandingUrlStands(log, KeyAfter(keySupplied, key0, pre));
      if Connects(Last(attempts)) {
        var all := Exchanges(keySupplied, key0, attempts);
        assert Init(all) == log;
      }
    }
  }

  /** With an auth key no URL is ever offered, so none is ever followed up on. */
  lemma {:induction false} KeyNeverFollowsUp(key0: NodeKey, attempts: seq<Attempt>)
    ensures var log := Exchanges(true, key0, attempts);
            StandingUrl(log).None? && forall i | 0 <= i < |log| :: log[i].followup.None?
  {
    if attempts != [] {
      KeyNeverFollowsUp(key0, Init(attempts));
      if Connects(Last(attempts)) {
        assert Init(Exchanges(true, key0, attempts)) == Exchanges(true, key0, Init(attempts));
      }
    }
  }

  /** Every exchange of a login is one of its attempts, in order, and exactly those that connect have one. */
  lemma {:induction false} ExchangesAreAttempts(keySupplied: bool, key0: NodeKey, attempts: seq<Attempt>, i: nat)
    requires i < |attempts| && Connects(attempts[i])
    ensures var k := |Exchanges(keySupplied, key0, attempts[..i])|;
            && k < |Exchanges(keySupplied, key0, attempts)|
            && Exchanges(keySupplied, key0, attempts)[k].result == ResultOf(keySupplied, attempts[i])
            && Exchanges(keySupplied, key0, attempts)[k].key == KeyAfter(keySupplied, key0, attempts[..i])
  {
    TakeOfInit(attempts, i);
    if i == |attempts| - 1 {
      TakeAll(Init(attempts));
    } else {
      ExchangesAreAttempts(keySupplied, key0, Init(attempts), i);
    }
  }

  /** Without an auth key only a key store failure ends the wait with an error. */
  lemma InteractiveErrors(a: Attempt)
    ensures var d := Decides(false, a);
            d.Some? && d.value.Errored? ==> d.value.error == StoreFailed && FindsExpired(false, a) && a.newKey.None?
  {
  }

  lemma {:induction false} NoGrantYet(keySupplied: bool, key0: NodeKey, attempts: seq<Attempt>)
    requires NoneDecides(keySupplied, attempts)
    ensures forall i | 0 <= i < |Exchanges(keySupplied, key0, attempts)| ::
              !Grants(Exchanges(keySupplied, key0, attempts)[i])
  {
    if attempts != [] {
      assert forall i | 0 <= i < |Init(attempts)| :: Init(attempts)[i] == attempts[i];
      NoGrantYet(keySupplied, key0, Init(attempts));
      assert Decides(keySupplied, attempts[|attempts| - 1]).None?;
    }
  }

  /** The login succeeded exactly if its last exchange is a grant, and no other is; it is the current key's. */
  ghost predicate GrantedAtEnd(log: seq<Exchange>, key: NodeKey, outcome: LoginOutcome) {
    && (forall i | 0 <= i < |log| :: Grants(log[i]) <==> i == |log| - 1 && outcome.Authorized?)
    && (outcome.Authorized? ==> log != [] && Last(log).key == key)
  }

  /** The attempt that decides a login grants it exactly when the login succeeds. */
  lemma LoginEnds(keySupplied: bool, key0: NodeKey, attempts: seq<Attempt>, n: nat, outcome: LoginOutcome)
    requires n < |attempts| && NoneDecides(keySupplied, attempts[..n])
    requires Decides(keySupplied, attempts[n]) == Some(outcome)
    ensures GrantedAtEnd(Exchanges(keySupplied, key0, attempts[..n + 1]),
                         KeyAfter(keySupplied, key0, attempts[..n + 1]), outcome)
  {
    NoGrantYet(keySupplied, key0, attempts[..n]);
    OneMoreAttempt(keySupplied, key0, attempts, n);
  }

  // ---------- the loop ----------

  lemma OneMoreAttempt(keySupplied: bool, key0: NodeKey, attempts: seq<Attempt>, i: nat)
    requires i < |attempts|
    ensures var a, pre, all := attempts[i], attempts[..i], attempts[..i + 1];
            && (NoneDecides(keySupplied, all) <==> NoneDecides(keySupplied, pre) && Decides(keySupplied, a).None?)
            && KeyAfter(keySupplied, key0, all) ==
               (if FindsExpired(keySupplied, a) && a.newKey.Some? then a.newKey.value
                else KeyAfter(keySupplied, key0, pre))
            && Exchanges(keySupplied, key0, all) ==
               var log := Exchanges(keySupplied, key0, pre);
               if Connects(a) then
                 log + [Exchange(KeyAfter(keySupplied, key0, pre), StandingUrl(log), ResultOf(keySupplied, a))]
               else log
  {
    InitOfTake(attempts, i);
    CutLast(attempts, i);
  }

  lemma OneMoreExchange(log: seq<Exchange>, e: Exchange)
    ensures StandingUrl(log + [e]) == UrlAfter(StandingUrl(log), e)
  {
    assert Init(log + [e]) == log;
  }

  /** One attempt: a fresh connection, a request, and what its answer leads to. */
  method Register(keySupplied: bool, key0: NodeKey, followup0: Option<string>, tracker0: Tracker, a: Attempt)
    returns (decided: Option<LoginOutcome>, sent: Option<Exchange>, key: NodeKey,
             followup: Option<string>, tracker: Tracker)
    requires !keySupplied ==> tracker0.state == NeedsLogin
    ensures decided == Decides(keySupplied, a)
    ensures sent == if Connects(a) then Some(Exchange(key0, followup0, ResultOf(keySupplied, a))) else None
    ensures key == if FindsExpired(keySupplied, a) && a.newKey.Some? then a.newKey.value else key0
    ensures decided.None? ==> followup == if sent.Some? then UrlAfter(followup0, sent.value) else followup0
    ensures tracker == if decided == Some(Authorized) then ClearNeedsLogin(tracker0) else tracker0
  {
    decided, sent, key, followup, tracker := None, None, key0, followup0, tracker0;
    if a.abort.Some? {
      decided := Some(Aborted(a.abort.value));
      return;
    }
    if !a.connOk {
      if keySupplied {
        decided := Some(Errored(ConnFailed));
      }
      return;
    }
    var result := if a.response.Some? then InterpretRegisterResponse(a.response.value, keySupplied)
                  else Err(ConnFailed);
    sent := Some(Exchange(key, followup, result));
    if result.Err? {
      if keySupplied || result.error.AuthRejected? {
        decided := Some(Errored(result.error));
      }
      return;
    }
    var o := result.outcome;
    if o.nodeKeyExpired && !o.machineAuthorized {
      if a.newKey.None? {
        decided := Some(Errored(StoreFailed));
        return;
      }
      key := a.newKey.value;
      followup := None;
      return;
    }
    if o.machineAuthorized {
      tracker := ClearNeedsLogin(tracker);
      decided := Some(Authorized);
      return;
    }
    match o.pendingAuthUrl {
      case Some(url) =>
        tracker := SetNeedsLogin(tracker);
        followup := Some(url);
      case None =>
        if keySupplied {
          decided := Some(Errored(NotAuthorized));
        }
    }
  }

  /** Where a login stands after some attempts none of which decided it. */
  ghost predicate Underway(keySupplied: bool, key0: NodeKey, attempts: seq<Attempt>, log: seq<Exchange>,
                           key: NodeKey, followup: Option<string>) {
    && NoneDecides(keySupplied, attempts)
    && log == Exchanges(keySupplied, key0, attempts) && key == KeyAfter(keySupplied, key0, attempts)
    && followup == StandingUrl(log)
  }

  /**
  How a login ends. The first attempt that decides anything decides the outcome,
  and the wait goes on exactly while none does; what went out and the current
  key are those of the attempts made; success is a grant to that key in the last
  exchange and no other.
  */
  ghost predicate Ends(keySupplied: bool, key0: NodeKey, attempts: seq<Attempt>, outcome: LoginOutcome,
                       log: seq<Exchange>, key: NodeKey, tried: nat) {
    && tried <= |attempts|
    && (outcome.Waiting? ==> tried == |attempts| && NoneDecides(keySupplied, attempts))
    && (!outcome.Waiting? ==>
          && tried > 0 && NoneDecides(keySupplied, attempts[..tried - 1])
          && Decides(keySupplied, attempts[tried - 1]) == Some(outcome))
    && log == Exchanges(keySupplied, key0, attempts[..tried]) && key == KeyAfter(keySupplied, key0, attempts[..tried])
    && GrantedAtEnd(log, key, outcome)
  }

  function Sent(log: seq<Exchange>, sent: Option<Exchange>): seq<Exchange> {
    if sent.Some? then log + [sent.value] else log
  }

  lemma OneMoreRegister(keySupplied: bool, key0: NodeKey, attempts: seq<Attempt>, n: nat, log: seq<Exchange>,
                        key: NodeKey,
                        followup: Option<string>, sent: Option<Exchange>, key': NodeKey, followup': Option<string>)
    requires n < |attempts| && Underway(keySupplied, key0, attempts[..n], log, key, followup)
    requires sent ==
             if Connects(attempts[n]) then Some(Exchange(key, followup, ResultOf(keySupplied, attempts[n]))) else None
    requires key' ==
             if FindsExpired(keySupplied, attempts[n]) && attempts[n].newKey.Some? then attempts[n].newKey.value
             else key
    ensures Decides(keySupplied, attempts[n]).None?
            && followup' == (if sent.Some? then UrlAfter(followup, sent.value) else followup) ==>
              Underway(keySupplied, key0, attempts[..n + 1], Sent(log, sent), key', followup')
    ensures Decides(keySupplied, attempts[n]).Some? ==>
              Ends(keySupplied, key0, attempts, Decides(keySupplied, attempts[n]).value, Sent(log, sent), key', n + 1)
  {
    OneMoreAttempt(keySupplied, key0, attempts, n);
    if sent.Some? {
      OneMoreExchange(log, sent.value);
    }
    if Decides(keySupplied, attempts[n]).Some? {
      LoginEnds(keySupplied, key0, attempts, n, Decides(keySupplied, attempts[n]).value);
    }
  }

  lemma StillWaiting(keySupplied: bool, key0: NodeKey, attempts: seq<Attempt>, log: seq<Exchange>, key: NodeKey,
                     followup: Option<string>)
    requires Underway(keySupplied, key0, attempts, log, key, followup)
    ensures Ends(keySupplied, key0, attempts, Waiting, log, key, |attempts|)
  {
    TakeAll(attempts);
    NoGrantYet(keySupplied, key0, attempts);
  }

  method InteractiveLogin(keySupplied: bool, key0: NodeKey, tracker0: Tracker, attempts: seq<Attempt>)
    returns (outcome: LoginOutcome, key: NodeKey, tracker: Tracker, log: seq<Exchange>, tried: nat)
    ensures Ends(keySupplied, key0, attempts, outcome, log, key, tried)
    // An interactive login enters the login wait; only being authorized leaves it.
    ensures tracker == var t := if keySupplied then tracker0 else SetNeedsLogin(tracker0);
                       if outcome.Authorized? then ClearNeedsLogin(t) else t
  {
    key, tracker, log, tried := key0, tracker0, [], 0;
    if !keySupplied {
      tracker := SetNeedsLogin(tracker);
    }
    var followup: Option<string> := None;
    while tried < |attempts|
      invariant tried <= |attempts| && tracker == if keySupplied then tracker0 else SetNeedsLogin(tracker0)
      invariant Underway(keySupplied, key0, attempts[..tried], log, key, followup)
    {
      var decided, sent, key', followup';
      decided, sent, key', followup', tracker := Register(keySupplied, key, followup, tracker, attempts[tried]);
      OneMoreRegister(keySupplied, key0, attempts, tried, log, key, followup, sent, key', followup');
      log, key, followup, tried := Sent(log, sent), key', followup', tried + 1;
      if decided.Some? {
        outcome := decided.value;
        return;
      }
    }
    TakeAll(attempts);
    StillWaiting(keySupplied, key0, attempts, log, key, followup);
    outcome := Waiting;
  }
}
