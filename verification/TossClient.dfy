/** The token client of the Toss API: one token shared by concurrent requests,
    issued once at a time, with a circuit breaker. Every await of the program is
    the boundary of a step. */
module TossClient {
  import opened Numbers

  const REFRESH_LEEWAY_SEC := 60
  const FAILURE_THRESHOLD := 3
  const BREAKER_COOLDOWN_MS := 60_000

  // ----- the fields of the service -----

  /** `inFlight` is the number of the token request whose promise is shared. */
  datatype Cache = Cache(
    token: Option<string>, expiresAt: int, inFlight: Option<nat>, failures: nat, breakerOpenUntil: int)

  const NO_TOKEN := Cache(None, 0, None, 0, 0)

  datatype Answer = Cached(token: string) | Joined(issue: nat) | Started(issue: nat) | Refused

  /** Asking for a token, up to the first await; `next` numbers a new request. */
  function AskToken(c: Cache, configured: bool, now: int, next: nat): (Cache, Answer) {
    if c.token.Some? && c.token.value != "" && now < c.expiresAt then (c, Cached(c.token.value))
    else if c.inFlight.Some? then (c, Joined(c.inFlight.value))
    else if !configured || now < c.breakerOpenUntil then (c, Refused)
    else (c.(inFlight := Some(next)), Started(next))
  }

  function TokenIssued(c: Cache, token: string, expiresIn: int, now: int): Cache {
    c.(token := Some(token), expiresAt := now + MaxInt(0, expiresIn - REFRESH_LEEWAY_SEC) * 1000,
       failures := 0, breakerOpenUntil := 0)
  }

  function AuthFailed(c: Cache, now: int): Cache {
    var failures := c.failures + 1;
    c.(failures := failures,
       breakerOpenUntil := if failures >= FAILURE_THRESHOLD then now + BREAKER_COOLDOWN_MS else c.breakerOpenUntil)
  }

  function Invalidate(c: Cache, token: Option<string>): Cache {
    if token.Some? && c.token == token then c.(token := None, expiresAt := 0) else c
  }

  /** The service as the program has it. */
  class TossService {
    var accessToken: Option<string>
    var tokenExpiresAt: int
    var tokenInFlight: Option<nat>
    var authFailureCount: nat
    var breakerOpenUntil: int

    constructor ()
      ensures View() == NO_TOKEN
    {
      accessToken, tokenExpiresAt, tokenInFlight := None, 0, None;
      authFailureCount, breakerOpenUntil := 0, 0;
    }

    function View(): Cache
      reads this
    {
      Cache(accessToken, tokenExpiresAt, tokenInFlight, authFailureCount, breakerOpenUntil)
    }

    method GetAccessToken(configured: bool, now: int, next: nat) returns (answer: Answer)
      modifies this`tokenInFlight
      ensures (View(), answer) == AskToken(old(View()), configured, now, next)
    {
      if accessToken.Some? && accessToken.value != "" && now < tokenExpiresAt {
        return Cached(accessToken.value);
      }
      if tokenInFlight.Some? {
        return Joined(tokenInFlight.value);
      }
      if !configured {
        return Refused;
      }
      if now < breakerOpenUntil {
        return Refused;
      }
      tokenInFlight := Some(next);
      answer := Started(next);
    }

    /** The rest of `issueToken` when the request succeeds. */
    method KeepToken(token: string, expiresIn: int, now: int)
      modifies this
      ensures View() == TokenIssued(old(View()), token, expiresIn, now)
    {
      accessToken := Some(token);
      var ttlMs := MaxInt(0, expiresIn - REFRESH_LEEWAY_SEC) * 1000;
      tokenExpiresAt := now + ttlMs;
      authFailureCount := 0;
      breakerOpenUntil := 0;
    }

    method RecordAuthFailure(now: int)
      modifies this`authFailureCount, this`breakerOpenUntil
      ensures View() == AuthFailed(old(View()), now)
    {
      authFailureCount := authFailureCount + 1;
      if authFailureCount >= FAILURE_THRESHOLD {
        breakerOpenUntil := now + BREAKER_COOLDOWN_MS;
      }
    }

    method InvalidateToken(token: Option<string>)
      modifies this`accessToken, this`tokenExpiresAt
      ensures View() == Invalidate(old(View()), token)
    {
      if token.Some? && accessToken == token {
        accessToken := None;
        tokenExpiresAt := 0;
      }
    }
  }

  // ----- concurrent requests -----

  /** Aborted: the rate limiter was shut down before the request was sent. */
  datatype Outcome = Pending | Issued(token: string) | Failed(at: int, unauthorized: bool) | Aborted

  /** `starter` is the request that started it. */
  datatype Issue = Issue(startedAt: int, outcome: Outcome, starter: nat)

  /** Where one `get` is: waiting for a token request, holding a token while it
      waits for the rate limiter, waiting for the data, or settled. */
  datatype Phase = Awaiting(issue: nat) | Holding(token: string) | Requested(token: string) | Done(ok: bool)

  datatype Call = Call(phase: Phase, attempt: nat, usedToken: Option<string>, requests: nat)

  datatype World = World(cache: Cache, now: int, issues: seq<Issue>, calls: seq<Call>)

  datatype Reply = Data | Unauthorized | OtherError

  datatype Event =
    | Wait(ms: nat)
    | Get
    | Settle(issue: nat, outcome: Outcome, expiresIn: int)
    | Release(issue: nat)
    | Resume(call: nat)
    | Send(call: nat)
    | Answered(call: nat, reply: Reply)
    | Cancelled(call: nat)

  /** Request `k` goes for a token and waits, holds one, or gives up. */
  function Enter(w: World, configured: bool, k: nat, attempt: nat, usedToken: Option<string>, requests: nat)
    : (World, Call)
  {
    var (cache, answer) := AskToken(w.cache, configured, w.now, |w.issues|);
    match answer
    case Cached(t) => (w, Call(Holding(t), attempt, Some(t), requests))
    case Joined(i) => (w, Call(Awaiting(i), attempt, usedToken, requests))
    case Started(i) =>
      (w.(cache := cache, issues := w.issues + [Issue(w.now, Pending, k)]),
       Call(Awaiting(i), attempt, usedToken, requests))
    case Refused => (w, Call(Done(false), attempt, usedToken, requests))
  }

  function SetCall(w: World, k: nat, c: Call): World
    requires k < |w.calls|
  {
    w.(calls := w.calls[k := c])
  }

  /** A 401: clear the token the request used, and go again once. */
  function After401(w: World, configured: bool, k: nat): World
    requires k < |w.calls|
  {
    var c := w.calls[k];
    if c.attempt >= 2 then SetCall(w, k, c.(phase := Done(false)))
    else
      var (w', c') := Enter(w.(cache := Invalidate(w.cache, c.usedToken)), configured, k, 2, c.usedToken, c.requests);
      SetCall(w', k, c')
  }

  predicate Settled(w: World, i: nat) { i < |w.issues| && !w.issues[i].outcome.Pending? }

  /** Steps that are not possible change nothing. */
  function Step(w: World, configured: bool, e: Event): World {
    match e
    case Wait(ms) => w.(now := w.now + ms)
    case Get =>
      var (w', c) := Enter(w, configured, |w.calls|, 1, None, 0);
      w'.(calls := w'.calls + [c])
    case Settle(i, outcome, expiresIn) =>
      if i < |w.issues| && w.issues[i].outcome.Pending? && !outcome.Pending? then
        match outcome
        case Issued(t) =>
          w.(cache := TokenIssued(w.cache, t, expiresIn, w.now),
             issues := w.issues[i := w.issues[i].(outcome := outcome)])
        case Failed(_, u) =>
          w.(cache := AuthFailed(w.cache, w.now), issues := w.issues[i := w.issues[i].(outcome := Failed(w.now, u))])
        case Aborted => w.(issues := w.issues[i := w.issues[i].(outcome := Aborted)])
      else w
    case Release(i) =>
      if Settled(w, i) && w.cache.inFlight == Some(i) then w.(cache := w.cache.(inFlight := None)) else w
    case Resume(k) =>
      if k < |w.calls| && w.calls[k].phase.Awaiting? && Settled(w, w.calls[k].phase.issue)
         && w.cache.inFlight != Some(w.calls[k].phase.issue)
      then
        var c := w.calls[k];
        match w.issues[c.phase.issue].outcome
        case Issued(t) => SetCall(w, k, c.(phase := Holding(t), usedToken := Some(t)))
        case Failed(_, u) => if u then After401(w, configured, k) else SetCall(w, k, c.(phase := Done(false)))
        case Aborted => SetCall(w, k, c.(phase := Done(false)))
      else w
    case Send(k) =>
      if k < |w.calls| && w.calls[k].phase.Holding? then
        var c := w.calls[k];
        SetCall(w, k, c.(phase := Requested(c.phase.token), requests := c.requests + 1))
      else w
    case Answered(k, reply) =>
      if k < |w.calls| && w.calls[k].phase.Requested? then
        match reply
        case Data => SetCall(w, k, w.calls[k].(phase := Done(true)))
        case Unauthorized => After401(w, configured, k)
        case OtherError => SetCall(w, k, w.calls[k].(phase := Done(false)))
      else w
    case Cancelled(k) =>
      if k < |w.calls| && w.calls[k].phase.Holding? then SetCall(w, k, w.calls[k].(phase := Done(false))) else w
  }

  function Run(w: World, configured: bool, es: seq<Event>): World {
    if |es| == 0 then w else Step(Run(w, configured, es[..|es| - 1]), configured, es[|es| - 1])
  }

  function Start(now: nat): World { World(NO_TOKEN, now, [], []) }

  // ----- one request, one token -----

  /** Two data requests at most, the second only on the second attempt. */
  predicate CallOk(c: Call) {
    && 1 <= c.attempt <= 2
    && c.requests <= c.attempt
    && (c.phase.Awaiting? || c.phase.Holding? ==> c.requests < c.attempt)
    && (c.phase.Holding? || c.phase.Requested? ==> c.usedToken == Some(c.phase.token))
    && (c.phase.Awaiting? && c.attempt == 1 ==> c.usedToken == None)
  }

  ghost predicate CallsOk(w: World) { forall k :: 0 <= k < |w.calls| ==> CallOk(w.calls[k]) }

  lemma EnterIsOk(w: World, configured: bool, k: nat, attempt: nat, usedToken: Option<string>, requests: nat)
    requires 1 <= attempt <= 2 && requests < attempt && (attempt == 1 ==> usedToken == None)
    ensures CallOk(Enter(w, configured, k, attempt, usedToken, requests).1)
    ensures Enter(w, configured, k, attempt, usedToken, requests).0.calls == w.calls
  {
  }

  lemma After401KeepsCalls(w: World, configured: bool, k: nat)
    requires CallsOk(w) && k < |w.calls|
    ensures CallsOk(After401(w, configured, k))
  {
    var c := w.calls[k];
    if c.attempt == 1 {
      EnterIsOk(w.(cache := Invalidate(w.cache, c.usedToken)), configured, k, 2, c.usedToken, c.requests);
    }
  }

  lemma StepKeepsCalls(w: World, configured: bool, e: Event)
    requires CallsOk(w)
    ensures CallsOk(Step(w, configured, e))
  {
    match e
    case Get => EnterIsOk(w, configured, |w.calls|, 1, None, 0);
    case Resume(k) => if k < |w.calls| { After401KeepsCalls(w, configured, k); }
    case Answered(k, reply) => if k < |w.calls| { After401KeepsCalls(w, configured, k); }
    case _ =>
  }

  /** Every request, in every interleaving: at most two data requests. */
  lemma {:induction false} AtMostTwoDataRequests(now: nat, configured: bool, es: seq<Event>)
    ensures var w := Run(Start(now), configured, es);
      CallsOk(w) && forall k :: 0 <= k < |w.calls| ==> w.calls[k].requests <= 2
  {
    if |es| > 0 {
      AtMostTwoDataRequests(now, configured, es[..|es| - 1]);
      StepKeepsCalls(Run(Start(now), configured, es[..|es| - 1]), configured, es[|es| - 1]);
    }
  }

  /** A cached token is dropped exactly when a data request that used this very
      token is answered 401 for the first time; a late 401 on an older token
      leaves a newer one alone. */
  lemma DroppedOnlyByItsOwn401(w: World, configured: bool, e: Event)
    requires CallsOk(w) && w.cache.token.Some?
    ensures Step(w, configured, e).cache.token == None <==>
      && e.Answered? && e.reply == Unauthorized && e.call < |w.calls|
      && w.calls[e.call].phase == Requested(w.cache.token.value)
      && w.calls[e.call].attempt == 1
  {
  }

  /** A cached token is replaced only by a token request that succeeds. */
  lemma ReplacedOnlyByAnIssue(w: World, configured: bool, e: Event)
    requires Step(w, configured, e).cache.token.Some? && Step(w, configured, e).cache.token != w.cache.token
    ensures e.Settle? && e.outcome == Issued(Step(w, configured, e).cache.token.value)
    ensures e.issue < |w.issues| && w.issues[e.issue].outcome.Pending?
  {
  }

  // ----- where tokens come from -----

  ghost predicate WasIssued(issues: seq<Issue>, token: string) {
    exists i :: 0 <= i < |issues| && issues[i].outcome == Issued(token)
  }

  /** The cached token, and every token a request holds or used, was issued. */
  ghost predicate TokensIssued(w: World) {
    && (w.cache.token.Some? ==> WasIssued(w.issues, w.cache.token.value))
    && (forall k :: 0 <= k < |w.calls| ==> CallIssued(w.issues, w.calls[k]))
  }

  ghost predicate CallIssued(issues: seq<Issue>, c: Call) { c.usedToken.Some? ==> WasIssued(issues, c.usedToken.value) }

  /** The log only grows, and outcomes that are settled stay. */
  ghost predicate Extends(issues: seq<Issue>, more: seq<Issue>) {
    && |issues| <= |more|
    && forall i :: 0 <= i < |issues| && !issues[i].outcome.Pending? ==> more[i] == issues[i]
  }

  lemma StillIssued(issues: seq<Issue>, more: seq<Issue>, token: string)
    requires WasIssued(issues, token) && Extends(issues, more)
    ensures WasIssued(more, token)
  {
    var i :| 0 <= i < |issues| && issues[i].outcome == Issued(token);
    assert more[i].outcome == Issued(token);
  }

  lemma StepExtends(w: World, configured: bool, e: Event)
    ensures Extends(w.issues, Step(w, configured, e).issues)
  {
  }

  lemma EnterTakesCached(w: World, configured: bool, k: nat, attempt: nat, usedToken: Option<string>, requests: nat)
    ensures var (w', c) := Enter(w, configured, k, attempt, usedToken, requests);
      w'.cache.token == w.cache.token && (c.usedToken == usedToken || c.usedToken == w.cache.token)
  {
  }

  lemma After401TakesCached(w: World, configured: bool, k: nat)
    requires k < |w.calls|
    ensures var w' := After401(w, configured, k);
      && |w'.calls| == |w.calls| && (w'.cache.token.Some? ==> w'.cache.token == w.cache.token)
      && (w'.calls[k].usedToken.Some? ==>
            w'.calls[k].usedToken == w.calls[k].usedToken || w'.calls[k].usedToken == w.cache.token)
      && forall j :: 0 <= j < |w.calls| && j != k ==> w'.calls[j] == w.calls[j]
  {
    var c := w.calls[k];
    EnterTakesCached(w.(cache := Invalidate(w.cache, c.usedToken)), configured, k, 2, c.usedToken, c.requests);
    EnterIsOk(w.(cache := Invalidate(w.cache, c.usedToken)), configured, k, 2, None, 0);
  }

  lemma After401KeepsTokens(w: World, configured: bool, k: nat)
    requires TokensIssued(w) && k < |w.calls|
    ensures var w' := After401(w, configured, k);
      && (w'.cache.token.Some? ==> WasIssued(w.issues, w'.cache.token.value))
      && forall j :: 0 <= j < |w'.calls| ==> CallIssued(w.issues, w'.calls[j])
  {
    After401TakesCached(w, configured, k);
    forall j | 0 <= j < |w.calls| ensures CallIssued(w.issues, After401(w, configured, k).calls[j]) {
      assert CallIssued(w.issues, w.calls[j]);
    }
  }

  /** What a step leaves in each call was there, or was cached, or is the token of
      the request it waited for; what it leaves in the cache was there, or is new. */
  lemma StepBringsTokens(w: World, configured: bool, e: Event)
    requires TokensIssued(w)
    ensures var w' := Step(w, configured, e);
      && (w'.cache.token.Some? ==>
            WasIssued(w.issues, w'.cache.token.value) || WasIssued(w'.issues, w'.cache.token.value))
      && forall k :: 0 <= k < |w'.calls| ==> CallIssued(w.issues, w'.calls[k])
  {
    match e
    case Get => EnterTakesCached(w, configured, |w.calls|, 1, None, 0);
    case Settle(i, outcome, expiresIn) =>
      var w' := Step(w, configured, e);
      if i < |w.issues| && w.issues[i].outcome.Pending? && outcome.Issued? {
        assert w'.issues[i].outcome == outcome;
      }
    case Resume(k) =>
      if k < |w.calls| {
        After401KeepsTokens(w, configured, k);
      }
    case Answered(k, reply) =>
      if k < |w.calls| {
        After401KeepsTokens(w, configured, k);
      }
    case _ =>
  }

  /** In every interleaving no request uses a token that was never issued. */
  lemma {:induction false} TokensAreIssued(now: nat, configured: bool, es: seq<Event>)
    ensures TokensIssued(Run(Start(now), configured, es))
  {
    if |es| > 0 {
      var w, e := Run(Start(now), configured, es[..|es| - 1]), es[|es| - 1];
      TokensAreIssued(now, configured, es[..|es| - 1]);
      var w' := Step(w, configured, e);
      StepBringsTokens(w, configured, e);
      StepExtends(w, configured, e);
      forall t | WasIssued(w.issues, t) ensures WasIssued(w'.issues, t) {
        StillIssued(w.issues, w'.issues, t);
      }
    }
  }

  /** A request succeeds exactly when its data request is answered with data. */
  lemma SucceedsOnlyByData(w: World, configured: bool, e: Event, k: nat)
    requires k < |w.calls| && !w.calls[k].phase.Done?
    ensures Step(w, configured, e).calls[k].phase == Done(true) <==>
            e == Answered(k, Data) && w.calls[k].phase.Requested?
  {
  }

  // ----- what becomes of a call -----

  /** Asking for a token other than `refused`: it holds the cached one while that may be
      used, waits for the request in flight or for a new one, or gives up. */
  function AskedPhase(c: Cache, refused: Option<string>, configured: bool, now: int, next: nat): Phase {
    if c.token.Some? && c.token != refused && c.token.value != "" && now < c.expiresAt then Holding(c.token.value)
    else if c.inFlight.Some? then Awaiting(c.inFlight.value)
    else if !configured || now < c.breakerOpenUntil then Done(false)
    else Awaiting(next)
  }

  /** The call is told how the token request it waits for went. */
  predicate Wakes(w: World, e: Event, k: nat) {
    && e == Resume(k) && k < |w.calls| && w.calls[k].phase.Awaiting?
    && w.calls[k].phase.issue < |w.issues| && !w.issues[w.calls[k].phase.issue].outcome.Pending?
    && w.cache.inFlight != Some(w.calls[k].phase.issue)
  }

  predicate WakesTo401(w: World, e: Event, k: nat) {
    Wakes(w, e, k) && var o := w.issues[w.calls[k].phase.issue].outcome; o.Failed? && o.unauthorized
  }

  /** One call through one event. A 401, of its data or of the token endpoint, sends it
      for another token once, and not for the one it used. */
  function NextCall(w: World, configured: bool, e: Event, k: nat): Call
    requires k < |w.calls|
  {
    var c := w.calls[k];
    var refused := WakesTo401(w, e, k) || (e == Answered(k, Unauthorized) && c.phase.Requested?);
    if refused && c.attempt < 2 then
      var phase := AskedPhase(w.cache, c.usedToken, configured, w.now, |w.issues|);
      Call(phase, 2, if phase.Holding? then Some(phase.token) else c.usedToken, c.requests)
    else if Wakes(w, e, k) && w.issues[c.phase.issue].outcome.Issued? then
      var t := w.issues[c.phase.issue].outcome.token;
      Call(Holding(t), c.attempt, Some(t), c.requests)
    else if e == Send(k) && c.phase.Holding? then Call(Requested(c.phase.token), c.attempt, c.usedToken, c.requests + 1)
    else if e == Answered(k, Data) && c.phase.Requested? then c.(phase := Done(true))
    else if || Wakes(w, e, k) || (e.Answered? && e.call == k && c.phase.Requested?)
            || (e == Cancelled(k) && c.phase.Holding?)
    then c.(phase := Done(false))
    else c
  }

  lemma After401Follows(w: World, configured: bool, k: nat)
    requires k < |w.calls|
    ensures var c, c' := w.calls[k], After401(w, configured, k).calls[k];
      if c.attempt >= 2 then c' == c.(phase := Done(false))
      else
        var phase := AskedPhase(w.cache, c.usedToken, configured, w.now, |w.issues|);
        c' == Call(phase, 2, if phase.Holding? then Some(phase.token) else c.usedToken, c.requests)
    ensures |After401(w, configured, k).calls| == |w.calls|
    ensures forall j :: 0 <= j < |w.calls| && j != k ==> After401(w, configured, k).calls[j] == w.calls[j]
  {
  }

  lemma ResumeFollows(w: World, configured: bool, j: nat, k: nat)
    requires k < |w.calls|
    ensures Step(w, configured, Resume(j)).calls[k] == NextCall(w, configured, Resume(j), k)
    ensures |Step(w, configured, Resume(j)).calls| == |w.calls|
  {
    if j < |w.calls| {
      After401Follows(w, configured, j);
    }
  }

  lemma AnsweredFollows(w: World, configured: bool, j: nat, reply: Reply, k: nat)
    requires k < |w.calls|
    ensures Step(w, configured, Answered(j, reply)).calls[k] == NextCall(w, configured, Answered(j, reply), k)
    ensures |Step(w, configured, Answered(j, reply)).calls| == |w.calls|
  {
    if j < |w.calls| {
      After401Follows(w, configured, j);
    }
  }

  /** Every call goes its own way through every step: only its own events and the cache
      move it, and only a get adds one, which asks for a token at once. */
  lemma CallFollows(w: World, configured: bool, e: Event, k: nat)
    requires k < |w.calls|
    ensures Step(w, configured, e).calls[k] == NextCall(w, configured, e, k)
    ensures |Step(w, configured, e).calls| == |w.calls| + (if e.Get? then 1 else 0)
  {
    match e
    case Resume(j) => ResumeFollows(w, configured, j, k);
    case Answered(j, reply) => AnsweredFollows(w, configured, j, reply, k);
    case _ =>
  }

  /** A token request ends once, as its answer says; it is in flight from its start until
      it is given up after that, and another one starts only when none is. */
  lemma IssueFollows(w: World, configured: bool, e: Event, i: nat)
    requires i < |w.issues|
    ensures var w', was := Step(w, configured, e), w.issues[i].outcome;
      && |w'.issues| >= |w.issues|
      && w'.issues[i] == Issue(w.issues[i].startedAt,
           if !e.Settle? || e.issue != i || !was.Pending? then was
           else if e.outcome.Failed? then Failed(w.now, e.outcome.unauthorized) else e.outcome,
           w.issues[i].starter)
      && (w.cache.inFlight == Some(i) ==>
            |w'.issues| == |w.issues|
            && w'.cache.inFlight == (if e == Release(i) && !was.Pending? then None else Some(i)))
  {
  }

  /** Only waiting passes time. */
  lemma TimeFollows(w: World, configured: bool, e: Event)
    ensures Step(w, configured, e).now - w.now == if e.Wait? then e.ms else 0
  {
  }

  lemma GetAsks(w: World, configured: bool)
    ensures var phase := AskedPhase(w.cache, None, configured, w.now, |w.issues|);
      var used := if phase.Holding? then Some(phase.token) else None;
      Step(w, configured, Get).calls == w.calls + [Call(phase, 1, used, 0)]
  {
  }

  /** A token is used from when it is issued until a minute before it expires, and not
      at all if that is at once. */
  lemma TokenIsUsedFor(c: Cache, token: string, expiresIn: int, issuedAt: int, now: int, configured: bool, next: nat)
    requires now >= issuedAt
    ensures AskedPhase(TokenIssued(c, token, expiresIn, issuedAt), None, configured, now, next) == Holding(token) <==>
            token != "" && now - issuedAt < 1000 * (expiresIn - 60)
  {
  }

  // ----- one token request at a time -----

  /** A token request that has not settled is the one in flight, and the last. */
  ghost predicate SingleFlight(c: Cache, issues: seq<Issue>) {
    && (c.inFlight.Some? ==> c.inFlight.value + 1 == |issues|)
    && (forall i :: 0 <= i < |issues| && issues[i].outcome.Pending? ==> c.inFlight == Some(i))
  }

  lemma EnterKeepsSingleFlight(w: World, configured: bool, k: nat, attempt: nat, usedToken: Option<string>,
                               requests: nat)
    requires SingleFlight(w.cache, w.issues)
    ensures var w' := Enter(w, configured, k, attempt, usedToken, requests).0; SingleFlight(w'.cache, w'.issues)
  {
  }

  lemma StepKeepsSingleFlight(w: World, configured: bool, e: Event)
    requires SingleFlight(w.cache, w.issues)
    ensures var w' := Step(w, configured, e); SingleFlight(w'.cache, w'.issues)
  {
    match e
    case Get => EnterKeepsSingleFlight(w, configured, |w.calls|, 1, None, 0);
    case Resume(k) => if k < |w.calls| { After401KeepsSingleFlight(w, configured, k); }
    case Answered(k, reply) => if k < |w.calls| { After401KeepsSingleFlight(w, configured, k); }
    case _ =>
  }

  lemma After401KeepsSingleFlight(w: World, configured: bool, k: nat)
    requires SingleFlight(w.cache, w.issues) && k < |w.calls|
    ensures var w' := After401(w, configured, k); SingleFlight(w'.cache, w'.issues)
  {
    var c := w.calls[k];
    EnterKeepsSingleFlight(w.(cache := Invalidate(w.cache, c.usedToken)), configured, k, 2, c.usedToken, c.requests);
  }

  lemma {:induction false} AlwaysSingleFlight(now: nat, configured: bool, es: seq<Event>)
    ensures var w := Run(Start(now), configured, es); SingleFlight(w.cache, w.issues)
  {
    if |es| > 0 {
      AlwaysSingleFlight(now, configured, es[..|es| - 1]);
      StepKeepsSingleFlight(Run(Start(now), configured, es[..|es| - 1]), configured, es[|es| - 1]);
    }
  }

  /** In every interleaving at most one token request is outstanding. */
  lemma OneTokenRequestAtATime(now: nat, configured: bool, es: seq<Event>, i: nat, j: nat)
    requires var w := Run(Start(now), configured, es);
      i < |w.issues| && j < |w.issues| && w.issues[i].outcome.Pending? && w.issues[j].outcome.Pending?
    ensures i == j
  {
    AlwaysSingleFlight(now, configured, es);
  }

  // ----- the circuit breaker -----

  /** Failures at the end of the log since the last success. */
  function Streak(issues: seq<Issue>): nat {
    if |issues| == 0 then 0
    else
      var before := issues[..|issues| - 1];
      match issues[|issues| - 1].outcome
      case Issued(_) => 0
      case Failed(_, _) => Streak(before) + 1
      case Pending => Streak(before)
      case Aborted => Streak(before)
  }

  /** When the last failure of the streak happened. */
  function LastFailure(issues: seq<Issue>): Option<int> {
    if |issues| == 0 then None
    else
      match issues[|issues| - 1].outcome
      case Issued(_) => None
      case Failed(at, _) => Some(at)
      case Pending => LastFailure(issues[..|issues| - 1])
      case Aborted => LastFailure(issues[..|issues| - 1])
  }

  /** The token request `j` respects the failures before it. */
  predicate Spaced(issues: seq<Issue>, j: nat)
    requires j < |issues|
  {
    var before := issues[..j];
    Streak(before) >= 3 ==>
      LastFailure(before).Some? && issues[j].startedAt >= LastFailure(before).value + 60_000
  }

  ghost predicate BreakerOk(c: Cache, issues: seq<Issue>) {
    && c.failures == Streak(issues)
    && (if Streak(issues) >= 3 then
          LastFailure(issues).Some? && c.breakerOpenUntil == LastFailure(issues).value + 60_000
        else c.breakerOpenUntil == 0)
    && (forall j :: 0 <= j < |issues| ==> Spaced(issues, j))
  }

  lemma AppendKeepsBreaker(c: Cache, issues: seq<Issue>, now: int, starter: nat)
    requires BreakerOk(c, issues) && now >= c.breakerOpenUntil
    ensures BreakerOk(c, issues + [Issue(now, Pending, starter)])
  {
    var all := issues + [Issue(now, Pending, starter)];
    assert all[..|issues|] == issues;
    forall j | 0 <= j < |all| ensures Spaced(all, j) {
      if j < |issues| {
        assert all[..j] == issues[..j];
        assert Spaced(issues, j);
      }
    }
  }

  lemma SettleKeepsSpacing(issues: seq<Issue>, outcome: Outcome)
    requires |issues| > 0 && forall j :: 0 <= j < |issues| ==> Spaced(issues, j)
    ensures var n := |issues| - 1; var all := issues[n := issues[n].(outcome := outcome)];
      all[..n] == issues[..n] && forall j :: 0 <= j < |all| ==> Spaced(all, j)
  {
    var n := |issues| - 1;
    var all := issues[n := issues[n].(outcome := outcome)];
    forall j | 0 <= j < |all| ensures Spaced(all, j) {
      assert all[..j] == issues[..j];
      assert Spaced(issues, j);
    }
  }

  lemma EnterKeepsBreaker(w: World, configured: bool, k: nat, attempt: nat, usedToken: Option<string>, requests: nat)
    requires BreakerOk(w.cache, w.issues)
    ensures var w' := Enter(w, configured, k, attempt, usedToken, requests).0; BreakerOk(w'.cache, w'.issues)
  {
    if w.now >= w.cache.breakerOpenUntil {
      AppendKeepsBreaker(w.cache, w.issues, w.now, k);
    }
  }

  lemma After401KeepsBreaker(w: World, configured: bool, k: nat)
    requires BreakerOk(w.cache, w.issues) && k < |w.calls|
    ensures var w' := After401(w, configured, k); BreakerOk(w'.cache, w'.issues)
  {
    var c := w.calls[k];
    EnterKeepsBreaker(w.(cache := Invalidate(w.cache, c.usedToken)), configured, k, 2, c.usedToken, c.requests);
  }

  lemma SettleKeepsBreaker(w: World, configured: bool, i: nat, outcome: Outcome, expiresIn: int)
    requires BreakerOk(w.cache, w.issues) && SingleFlight(w.cache, w.issues)
    ensures var w' := Step(w, configured, Settle(i, outcome, expiresIn)); BreakerOk(w'.cache, w'.issues)
  {
    if i < |w.issues| && w.issues[i].outcome.Pending? && !outcome.Pending? {
      assert i + 1 == |w.issues|;
      SettleKeepsSpacing(w.issues, if outcome.Failed? then Failed(w.now, outcome.unauthorized) else outcome);
    }
  }

  lemma StepKeepsBreaker(w: World, configured: bool, e: Event)
    requires BreakerOk(w.cache, w.issues) && SingleFlight(w.cache, w.issues)
    ensures var w' := Step(w, configured, e); BreakerOk(w'.cache, w'.issues)
  {
    match e
    case Get => EnterKeepsBreaker(w, configured, |w.calls|, 1, None, 0);
    case Settle(i, outcome, expiresIn) => SettleKeepsBreaker(w, configured, i, outcome, expiresIn);
    case Resume(k) => if k < |w.calls| { After401KeepsBreaker(w, configured, k); }
    case Answered(k, reply) => if k < |w.calls| { After401KeepsBreaker(w, configured, k); }
    case _ =>
  }

  /** The breaker counts the failures since the last success, and is open for a minute
      after each from the third on and only then. So while issuing keeps failing, every
      token request from the third failure on starts at least a minute after the failure
      before it. */
  lemma {:induction false} BreakerSpacesTokenRequests(now: nat, configured: bool, es: seq<Event>)
    ensures var w := Run(Start(now), configured, es);
      BreakerOk(w.cache, w.issues) && forall j :: 0 <= j < |w.issues| ==> Spaced(w.issues, j)
  {
    if |es| > 0 {
      var init := es[..|es| - 1];
      BreakerSpacesTokenRequests(now, configured, init);
      AlwaysSingleFlight(now, configured, init);
      StepKeepsBreaker(Run(Start(now), configured, init), configured, es[|es| - 1]);
    }
  }

  // ----- token requests per data request -----

  /** A token has to be asked for: none but the `refused` one can be used, none is in
      flight, and nothing forbids it. */
  predicate MustIssue(c: Cache, refused: Option<string>, configured: bool, now: int) {
    && !(c.token.Some? && c.token != refused && c.token.value != "" && now < c.expiresAt)
    && c.inFlight.None? && configured && now >= c.breakerOpenUntil
  }

  /** Request `k` hears a 401 on its first attempt: of its data, or of the token
      endpoint it waited for. */
  predicate Hears401(w: World, e: Event, k: nat) {
    && k < |w.calls| && w.calls[k].attempt < 2
    && ((e == Answered(k, Unauthorized) && w.calls[k].phase.Requested?)
        || (e == Resume(k) && w.calls[k].phase.Awaiting? && Settled(w, w.calls[k].phase.issue)
            && w.cache.inFlight != Some(w.calls[k].phase.issue)
            && var outcome := w.issues[w.calls[k].phase.issue].outcome; outcome.Failed? && outcome.unauthorized))
  }

  /** The first ask of request `k`, and its only other one, start a token request. */
  predicate FirstStarts(w: World, configured: bool, e: Event, k: nat) {
    e.Get? && k == |w.calls| && MustIssue(w.cache, None, configured, w.now)
  }

  predicate RetryStarts(w: World, configured: bool, e: Event, k: nat) {
    Hears401(w, e, k) && MustIssue(w.cache, w.calls[k].usedToken, configured, w.now)
  }

  function StartedBy(issues: seq<Issue>, k: nat): nat {
    if |issues| == 0 then 0
    else StartedBy(issues[..|issues| - 1], k) + (if issues[|issues| - 1].starter == k then 1 else 0)
  }

  lemma StartedByAppend(issues: seq<Issue>, x: Issue, k: nat)
    ensures StartedBy(issues + [x], k) == StartedBy(issues, k) + (if x.starter == k then 1 else 0)
  {
    assert (issues + [x])[..|issues|] == issues;
  }

  lemma {:induction false} StartedBySettle(issues: seq<Issue>, i: nat, outcome: Outcome, k: nat)
    requires i < |issues|
    ensures StartedBy(issues[i := issues[i].(outcome := outcome)], k) == StartedBy(issues, k)
  {
    var n := |issues| - 1;
    var all := issues[i := issues[i].(outcome := outcome)];
    if i == n {
      assert all[..n] == issues[..n];
    } else {
      assert all[..n] == issues[..n][i := issues[i].(outcome := outcome)];
      StartedBySettle(issues[..n], i, outcome, k);
    }
  }

  lemma EnterStarts(w: World, configured: bool, j: nat, attempt: nat, usedToken: Option<string>, requests: nat, k: nat)
    ensures StartedBy(Enter(w, configured, j, attempt, usedToken, requests).0.issues, k) ==
            StartedBy(w.issues, k) + (if j == k && MustIssue(w.cache, None, configured, w.now) then 1 else 0)
  {
    StartedByAppend(w.issues, Issue(w.now, Pending, j), k);
  }

  lemma After401Starts(w: World, configured: bool, j: nat, k: nat)
    requires j < |w.calls|
    ensures StartedBy(After401(w, configured, j).issues, k) == StartedBy(w.issues, k)
      + (if j == k && w.calls[j].attempt < 2 && MustIssue(w.cache, w.calls[j].usedToken, configured, w.now)
         then 1 else 0)
  {
    var c := w.calls[j];
    EnterStarts(w.(cache := Invalidate(w.cache, c.usedToken)), configured, j, 2, c.usedToken, c.requests, k);
  }

  /** A step starts a token request for `k` exactly when `k` asks, for the first
      time or again after a 401, and one has to be made. */
  lemma StepStartsIff(w: World, configured: bool, e: Event, k: nat)
    ensures StartedBy(Step(w, configured, e).issues, k) == StartedBy(w.issues, k)
            + (if FirstStarts(w, configured, e, k) || RetryStarts(w, configured, e, k) then 1 else 0)
  {
    match e
    case Get => EnterStarts(w, configured, |w.calls|, 1, None, 0, k);
    case Settle(i, outcome, expiresIn) =>
      if i < |w.issues| {
        StartedBySettle(w.issues, i, if outcome.Failed? then Failed(w.now, outcome.unauthorized) else outcome, k);
      }
    case Resume(j) =>
      if j < |w.calls| {
        After401Starts(w, configured, j, k);
      }
    case Answered(j, reply) =>
      if j < |w.calls| {
        After401Starts(w, configured, j, k);
      }
    case _ =>
  }

  ghost predicate FirstStarted(now: nat, configured: bool, es: seq<Event>, k: nat, n: nat) {
    n < |es| && FirstStarts(Run(Start(now), configured, es[..n]), configured, es[n], k)
  }

  ghost predicate RetryStarted(now: nat, configured: bool, es: seq<Event>, k: nat, n: nat) {
    n < |es| && RetryStarts(Run(Start(now), configured, es[..n]), configured, es[n], k)
  }

  lemma FirstNext(now: nat, configured: bool, es: seq<Event>, k: nat)
    requires |es| > 0
    ensures var n := |es| - 1;
      (exists m :: FirstStarted(now, configured, es, k, m)) <==>
      (exists m :: FirstStarted(now, configured, es[..n], k, m))
      || FirstStarts(Run(Start(now), configured, es[..n]), configured, es[n], k)
  {
    var n := |es| - 1;
    forall m: nat | m < n
      ensures FirstStarted(now, configured, es[..n], k, m) <==> FirstStarted(now, configured, es, k, m)
    {
      assert es[..n][..m] == es[..m];
    }
    if m: nat :| FirstStarted(now, configured, es, k, m) {
      assert m < n ==> FirstStarted(now, configured, es[..n], k, m);
    }
    if FirstStarts(Run(Start(now), configured, es[..n]), configured, es[n], k) {
      assert FirstStarted(now, configured, es, k, n);
    }
  }

  lemma RetryNext(now: nat, configured: bool, es: seq<Event>, k: nat)
    requires |es| > 0
    ensures var n := |es| - 1;
      (exists m :: RetryStarted(now, configured, es, k, m)) <==>
      (exists m :: RetryStarted(now, configured, es[..n], k, m))
      || RetryStarts(Run(Start(now), configured, es[..n]), configured, es[n], k)
  {
    var n := |es| - 1;
    forall m: nat | m < n
      ensures RetryStarted(now, configured, es[..n], k, m) <==> RetryStarted(now, configured, es, k, m)
    {
      assert es[..n][..m] == es[..m];
    }
    if m: nat :| RetryStarted(now, configured, es, k, m) {
      assert m < n ==> RetryStarted(now, configured, es[..n], k, m);
    }
    if RetryStarts(Run(Start(now), configured, es[..n]), configured, es[n], k) {
      assert RetryStarted(now, configured, es, k, n);
    }
  }

  /** Requests are numbered for good, and their attempts only rise. */
  lemma AttemptsRise(w: World, configured: bool, e: Event, k: nat)
    ensures var w' := Step(w, configured, e);
      && |w.calls| <= |w'.calls|
      && (FirstStarts(w, configured, e, k) ==> k < |w'.calls|)
      && (k < |w.calls| && w'.calls[k].attempt < 2 ==> w.calls[k].attempt < 2)
      && (RetryStarts(w, configured, e, k) ==> w'.calls[k].attempt == 2)
  {
  }

  /** A request that is not made yet has not asked, and one on its first attempt
      has not asked again. */
  ghost predicate AskedSoFar(now: nat, configured: bool, es: seq<Event>, k: nat) {
    var w := Run(Start(now), configured, es);
    && (k >= |w.calls| ==> forall n :: !FirstStarted(now, configured, es, k, n))
    && (k >= |w.calls| || w.calls[k].attempt < 2 ==> forall n :: !RetryStarted(now, configured, es, k, n))
  }

  /** What the last step of a run adds: the first ask, the second, or neither. */
  lemma AskStep(now: nat, configured: bool, es: seq<Event>, k: nat) returns (first: bool, retry: bool)
    requires |es| > 0
    ensures var init := es[..|es| - 1];
      && ((exists m :: FirstStarted(now, configured, es, k, m)) <==>
            (exists m :: FirstStarted(now, configured, init, k, m)) || first)
      && ((exists m :: RetryStarted(now, configured, es, k, m)) <==>
            (exists m :: RetryStarted(now, configured, init, k, m)) || retry)
    ensures var w, w' := Run(Start(now), configured, es[..|es| - 1]), Run(Start(now), configured, es);
      && StartedBy(w'.issues, k) == StartedBy(w.issues, k) + (if first || retry then 1 else 0)
      && |w.calls| <= |w'.calls| && (first ==> k == |w.calls| < |w'.calls|)
      && (k < |w.calls| && w'.calls[k].attempt < 2 ==> w.calls[k].attempt < 2)
      && (retry ==> k < |w.calls| && w.calls[k].attempt < 2 && w'.calls[k].attempt == 2)
  {
    var w, e := Run(Start(now), configured, es[..|es| - 1]), es[|es| - 1];
    first, retry := FirstStarts(w, configured, e, k), RetryStarts(w, configured, e, k);
    FirstNext(now, configured, es, k);
    RetryNext(now, configured, es, k);
    AttemptsRise(w, configured, e, k);
    StepStartsIff(w, configured, e, k);
  }

  lemma {:induction false} AskedOnceEach(now: nat, configured: bool, es: seq<Event>, k: nat)
    ensures AskedSoFar(now, configured, es, k)
    ensures StartedBy(Run(Start(now), configured, es).issues, k) ==
      (if exists n :: FirstStarted(now, configured, es, k, n) then 1 else 0)
      + (if exists n :: RetryStarted(now, configured, es, k, n) then 1 else 0)
  {
    if |es| > 0 {
      AskedOnceEach(now, configured, es[..|es| - 1], k);
      var first, retry := AskStep(now, configured, es, k);
    }
  }

  /** In every interleaving a request starts at most two token requests, and two
      exactly when its first ask has to make one and, after a 401 on its first
      attempt, so has its second: the token endpoint's own 401 counts like any. */
  lemma TwoTokenRequestsIff(now: nat, configured: bool, es: seq<Event>, k: nat)
    ensures var started := StartedBy(Run(Start(now), configured, es).issues, k);
      && started <= 2
      && (started == 2 <==>
            (exists m :: FirstStarted(now, configured, es, k, m))
            && (exists n :: RetryStarted(now, configured, es, k, n)))
  {
    AskedOnceEach(now, configured, es, k);
  }

  /** One request with refused credentials asks for a token twice: the 401 of the
      token endpoint is taken for an expired token. So the third failure, which
      opens the breaker, comes with the second request. */
  lemma RefusedCredentialsCountTwice(now: nat)
    ensures var es := [Get, Settle(0, Failed(0, true), 0), Release(0), Resume(0), Settle(1, Failed(0, true), 0)];
      Run(Start(now), true, es).cache.failures == 2 && StartedBy(Run(Start(now), true, es).issues, 0) == 2
  {
    var no := Failed(0, true);
    var w1 := Step(Start(now), true, Get);
    var w2 := Step(w1, true, Settle(0, no, 0));
    var w3 := Step(w2, true, Release(0));
    var w4 := Step(w3, true, Resume(0));
    var es := [Get, Settle(0, no, 0), Release(0), Resume(0), Settle(1, no, 0)];
    assert es[..4] == [Get, Settle(0, no, 0), Release(0), Resume(0)];
    assert es[..4][..3] == [Get, Settle(0, no, 0), Release(0)];
    assert es[..4][..3][..2] == [Get, Settle(0, no, 0)];
    assert es[..4][..3][..2][..1] == [Get];
    assert es[..4][..3][..2][..1][..0] == [];
    assert Run(Start(now), true, es[..4][..3][..2][..1]) == w1;
    assert Run(Start(now), true, es[..4][..3][..2]) == w2;
    assert Run(Start(now), true, es[..4][..3]) == w3;
    assert Run(Start(now), true, es[..4]) == w4;
    assert w4.issues[1].outcome.Pending?;
    var issues := Run(Start(now), true, es).issues;
    assert |issues| == 2 && issues[0].starter == 0 && issues[1].starter == 0;
    assert StartedBy(issues[..1], 0) == StartedBy(issues[..1][..0], 0) + 1;
  }
}
