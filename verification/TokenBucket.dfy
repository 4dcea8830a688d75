/** A token bucket with a queue of waiters, in the order of their requests. */
module TokenBucket {
  import opened Numbers

  /** Requests are numbered as they come. A request waits, is granted, or is
      rejected because the limiter was shut down. */
  datatype Bucket = Bucket(
    tokens: int, queue: seq<nat>, granted: seq<nat>, rejected: seq<nat>, issued: nat, closed: bool)

  function Full(capacity: nat): Bucket { Bucket(capacity, [], [], [], 0, false) }

  /** Grants as many waiters as there are tokens. */
  function Drain(b: Bucket): Bucket {
    var n := if b.closed then 0 else MaxInt(0, MinInt(b.tokens, |b.queue|));
    b.(tokens := b.tokens - n, queue := b.queue[n..], granted := b.granted + b.queue[..n])
  }

  function Acquire(b: Bucket): Bucket {
    var next := b.(issued := b.issued + 1);
    if b.closed then next.(rejected := b.rejected + [b.issued])
    else if |b.queue| == 0 && b.tokens > 0 then next.(tokens := b.tokens - 1, granted := b.granted + [b.issued])
    else Drain(next.(queue := b.queue + [b.issued]))
  }

  function Refill(capacity: nat, rps: nat, b: Bucket): Bucket {
    if b.closed then b else Drain(b.(tokens := MinInt(capacity, b.tokens + rps)))
  }

  function Shutdown(b: Bucket): Bucket {
    b.(closed := true, queue := [], rejected := b.rejected + b.queue)
  }

  /** A full bucket nobody waits at is not changed by a refill. */
  lemma RefillOfFull(capacity: nat, b: Bucket)
    requires b.tokens == capacity && b.queue == []
    ensures Refill(capacity, capacity, b) == b
  {
  }

  datatype Event = Acquired | Refilled | ShutDown

  function Step(capacity: nat, rps: nat, b: Bucket, e: Event): Bucket {
    match e
    case Acquired => Acquire(b)
    case Refilled => Refill(capacity, rps, b)
    case ShutDown => Shutdown(b)
  }

  function Run(capacity: nat, rps: nat, b: Bucket, es: seq<Event>): Bucket {
    if |es| == 0 then b else Step(capacity, rps, Run(capacity, rps, b, es[..|es| - 1]), es[|es| - 1])
  }

  lemma {:induction false} RunConcat(capacity: nat, rps: nat, b: Bucket, es: seq<Event>, fs: seq<Event>)
    ensures Run(capacity, rps, b, es + fs) == Run(capacity, rps, Run(capacity, rps, b, es), fs)
  {
    if |fs| == 0 {
      assert es + fs == es;
    } else {
      assert (es + fs)[..|es + fs| - 1] == es + fs[..|fs| - 1];
      RunConcat(capacity, rps, b, es, fs[..|fs| - 1]);
    }
  }

  function Refills(es: seq<Event>): nat {
    if |es| == 0 then 0 else Refills(es[..|es| - 1]) + (if es[|es| - 1].Refilled? then 1 else 0)
  }

  /** The total of `each` per refill. */
  function Brought(each: nat, es: seq<Event>): nat {
    if |es| == 0 then 0 else Brought(each, es[..|es| - 1]) + (if es[|es| - 1].Refilled? then each else 0)
  }

  lemma OneMore(k: nat, each: nat)
    ensures (k + 1) * each == k * each + each
  {
  }

  lemma {:induction false} BroughtIsProduct(each: nat, es: seq<Event>)
    ensures Brought(each, es) == Refills(es) * each
  {
    if |es| > 0 {
      BroughtIsProduct(each, es[..|es| - 1]);
      OneMore(Refills(es[..|es| - 1]), each);
    }
  }

  // ----- every reachable state -----

  /** The first `n` requests in order. */
  function Tickets(n: nat): seq<nat> { seq(n, i => i) }

  /** Nobody waits while there is a token, and every request is in exactly one
      place: granted in order, then waiting in order, or rejected at the end. */
  ghost predicate Sane(capacity: nat, b: Bucket) {
    && 0 <= b.tokens <= capacity
    && (|b.queue| > 0 ==> b.tokens == 0)
    && (b.closed ==> b.queue == [])
    && (!b.closed ==> b.rejected == [])
    && b.granted + b.queue + b.rejected == Tickets(b.issued)
  }

  lemma FullIsSane(capacity: nat)
    ensures Sane(capacity, Full(capacity)) && !Full(capacity).closed && Full(capacity).tokens == capacity
  {
  }

  lemma TicketsGrow(n: nat)
    ensures Tickets(n + 1) == Tickets(n) + [n]
  {
  }

  lemma DrainKeepsSane(capacity: nat, b: Bucket)
    requires !b.closed && b.rejected == [] && 0 <= b.tokens <= capacity
    requires b.granted + b.queue == Tickets(b.issued)
    ensures Sane(capacity, Drain(b))
  {
    var d := Drain(b);
    var n := |b.queue| - |d.queue|;
    assert b.queue[..n] + b.queue[n..] == b.queue;
    calc {
      d.granted + d.queue + d.rejected;
      b.granted + b.queue[..n] + b.queue[n..];
      b.granted + (b.queue[..n] + b.queue[n..]);
    }
  }

  /** Letting a request through at once is what queueing it would have done. */
  lemma FastPathIsSlowPath(capacity: nat, b: Bucket)
    requires Sane(capacity, b) && !b.closed
    ensures Acquire(b) == Drain(b.(issued := b.issued + 1, queue := b.queue + [b.issued]))
  {
  }

  lemma StepKeepsSane(capacity: nat, rps: nat, b: Bucket, e: Event)
    requires Sane(capacity, b)
    ensures Sane(capacity, Step(capacity, rps, b, e))
  {
    match e
    case Acquired =>
      TicketsGrow(b.issued);
      if b.closed {
        assert b.granted + [] + (b.rejected + [b.issued]) == b.granted + [] + b.rejected + [b.issued];
      } else {
        FastPathIsSlowPath(capacity, b);
        var waiting := b.(issued := b.issued + 1, queue := b.queue + [b.issued]);
        assert waiting.granted + waiting.queue == b.granted + b.queue + b.rejected + [b.issued];
        DrainKeepsSane(capacity, waiting);
      }
    case Refilled =>
      if !b.closed {
        var more := b.(tokens := MinInt(capacity, b.tokens + rps));
        assert more.granted + more.queue == b.granted + b.queue + b.rejected;
        DrainKeepsSane(capacity, more);
      }
    case ShutDown =>
      assert b.granted + [] + (b.rejected + b.queue) == b.granted + b.queue + b.rejected;
  }

  /** In every run tokens stay in range, nobody waits beside a token, grants are
      in the order of the requests, and after a shutdown each request has been
      settled exactly once. */
  lemma {:induction false} RunKeepsSane(capacity: nat, rps: nat, b: Bucket, es: seq<Event>)
    requires Sane(capacity, b)
    ensures Sane(capacity, Run(capacity, rps, b, es))
  {
    if |es| > 0 {
      RunKeepsSane(capacity, rps, b, es[..|es| - 1]);
      StepKeepsSane(capacity, rps, Run(capacity, rps, b, es[..|es| - 1]), es[|es| - 1]);
    }
  }

  /** Once shut down, always shut down: nothing is granted any more. */
  lemma {:induction false} ClosedStaysClosed(capacity: nat, rps: nat, b: Bucket, es: seq<Event>)
    requires Sane(capacity, b) && b.closed
    ensures var b' := Run(capacity, rps, b, es);
      b'.closed && b'.tokens == b.tokens && b'.granted == b.granted && b'.queue == []
  {
    if |es| > 0 {
      ClosedStaysClosed(capacity, rps, b, es[..|es| - 1]);
    }
  }

  /** What one step hands out while the limiter is open: a token to a request when there
      is one, and after a refill, up to the capacity, to as many waiters as there are
      tokens. */
  lemma StepGrants(capacity: nat, rps: nat, b: Bucket, e: Event)
    requires Sane(capacity, b) && !b.closed
    ensures var b' := Step(capacity, rps, b, e);
      var tokens := if e.Refilled? then (if b.tokens + rps < capacity then b.tokens + rps else capacity) else b.tokens;
      var wanting := if e.Acquired? then |b.queue| + 1 else |b.queue|;
      var n := if e.ShutDown? then 0 else if tokens < wanting then tokens else wanting;
      && |b'.granted| == |b.granted| + n && b'.tokens == tokens - n
      && b'.issued == b.issued + (if e.Acquired? then 1 else 0) && (b'.closed <==> e.ShutDown?)
  {
  }

  // ----- the rate -----

  lemma StepSpendsTokens(capacity: nat, rps: nat, b: Bucket, e: Event)
    requires Sane(capacity, b)
    ensures var b' := Step(capacity, rps, b, e);
      |b'.granted| + b'.tokens <= |b.granted| + b.tokens + (if e.Refilled? then rps else 0)
  {
  }

  lemma {:induction false} WindowSpends(capacity: nat, rps: nat, b: Bucket, es: seq<Event>)
    requires Sane(capacity, b)
    ensures var b' := Run(capacity, rps, b, es);
      |b'.granted| + b'.tokens <= |b.granted| + b.tokens + Brought(rps, es)
  {
    if |es| > 0 {
      RunKeepsSane(capacity, rps, b, es[..|es| - 1]);
      WindowSpends(capacity, rps, b, es[..|es| - 1]);
      StepSpendsTokens(capacity, rps, Run(capacity, rps, b, es[..|es| - 1]), es[|es| - 1]);
    }
  }

  /** Any window of a run, started anywhere, grants no more requests than the
      bucket held plus what the refills in the window brought. */
  lemma WindowBound(capacity: nat, rps: nat, b: Bucket, es: seq<Event>)
    requires Sane(capacity, b)
    ensures var b' := Run(capacity, rps, b, es);
      && |b'.granted| - |b.granted| <= b.tokens - b'.tokens + Refills(es) * rps
      && |b'.granted| - |b.granted| <= capacity + Refills(es) * rps
  {
    WindowSpends(capacity, rps, b, es);
    BroughtIsProduct(rps, es);
    RunKeepsSane(capacity, rps, b, es);
  }

  /** Whatever came before: a window with k refills grants at most the capacity
      and k times the rate. */
  lemma WindowInsideRun(capacity: nat, rps: nat, es: seq<Event>, window: seq<Event>)
    ensures var b, b' := Run(capacity, rps, Full(capacity), es), Run(capacity, rps, Full(capacity), es + window);
      |b'.granted| - |b.granted| <= capacity + Refills(window) * rps
  {
    FullIsSane(capacity);
    RunKeepsSane(capacity, rps, Full(capacity), es);
    RunConcat(capacity, rps, Full(capacity), es, window);
    WindowBound(capacity, rps, Run(capacity, rps, Full(capacity), es), window);
  }

  // ----- fairness -----

  /** What one refill can hand out to waiters. */
  function PerRefill(capacity: nat, rps: nat): nat { MinInt(capacity, rps) }

  predicate KeepsRunning(es: seq<Event>) { forall i :: 0 <= i < |es| ==> !es[i].ShutDown? }

  lemma {:induction false} StaysOpen(capacity: nat, rps: nat, b: Bucket, es: seq<Event>)
    requires Sane(capacity, b) && !b.closed && KeepsRunning(es)
    ensures !Run(capacity, rps, b, es).closed
  {
    if |es| > 0 {
      StaysOpen(capacity, rps, b, es[..|es| - 1]);
    }
  }

  /** Those who wait at `b` are the next to be granted, in their order: each
      refill grants at least min(capacity, rps) more of them, or all. */
  lemma {:induction false} WaitersAreServed(capacity: nat, rps: nat, b: Bucket, es: seq<Event>)
    requires Sane(capacity, b) && !b.closed && KeepsRunning(es)
    ensures var b' := Run(capacity, rps, b, es);
      && |b'.granted| + |b'.queue| >= |b.granted| + |b.queue|
      && |b'.granted| >= |b.granted| + MinInt(|b.queue|, Brought(PerRefill(capacity, rps), es))
  {
    if |es| > 0 {
      var init, last := es[..|es| - 1], es[|es| - 1];
      var before := Run(capacity, rps, b, init);
      RunKeepsSane(capacity, rps, b, init);
      StaysOpen(capacity, rps, b, init);
      WaitersAreServed(capacity, rps, b, init);
      StepServes(capacity, rps, before, last);
    }
  }

  lemma StepServes(capacity: nat, rps: nat, b: Bucket, e: Event)
    requires Sane(capacity, b) && !b.closed && !e.ShutDown?
    ensures var b' := Step(capacity, rps, b, e);
      && |b'.granted| + |b'.queue| >= |b.granted| + |b.queue|
      && |b'.granted| >= |b.granted| + (if e.Refilled? then MinInt(|b.queue|, PerRefill(capacity, rps)) else 0)
  {
  }

  lemma EnoughRefills(j: nat, k: nat, m: nat)
    requires m >= 1 && k >= (j + m - 1) / m
    ensures k * m >= j
  {
    assert k * m >= (j + m - 1) / m * m;
  }

  /** The j-th waiter (counted from 1) is granted within ceil(j / min(capacity,
      rps)) refills, however many requests come in between. */
  lemma WaitIsBounded(capacity: nat, rps: nat, b: Bucket, j: nat, es: seq<Event>)
    requires Sane(capacity, b) && !b.closed && KeepsRunning(es) && 1 <= j <= |b.queue|
    requires PerRefill(capacity, rps) >= 1
    requires Refills(es) >= (j + PerRefill(capacity, rps) - 1) / PerRefill(capacity, rps)
    ensures b.queue[j - 1] in Run(capacity, rps, b, es).granted
  {
    var b' := Run(capacity, rps, b, es);
    EnoughRefills(j, Refills(es), PerRefill(capacity, rps));
    BroughtIsProduct(PerRefill(capacity, rps), es);
    WaitersAreServed(capacity, rps, b, es);
    RunKeepsSane(capacity, rps, b, es);
    var at := |b.granted| + j - 1;
    assert b.queue[j - 1] == (b.granted + b.queue + b.rejected)[at] == at;
    assert b'.granted[at] == (b'.granted + b'.queue + b'.rejected)[at] == Tickets(b'.issued)[at] == at;
  }

  /** Refills that bring nothing: who waits waits for ever. */
  lemma {:induction false} Starvation(capacity: nat, rps: nat, b: Bucket, es: seq<Event>)
    requires Sane(capacity, b) && |b.queue| > 0 && PerRefill(capacity, rps) == 0
    ensures var b' := Run(capacity, rps, b, es);
      b'.granted == b.granted && b'.tokens == 0 && (b'.closed || b.queue <= b'.queue)
  {
    if |es| > 0 {
      Starvation(capacity, rps, b, es[..|es| - 1]);
    }
  }

  function OnlyRefills(k: nat): seq<Event> { seq(k, _ => Refilled) }

  /** Exactly when the first waiter is ever granted by refills. */
  lemma RefillsGrantIff(capacity: nat, rps: nat, b: Bucket)
    requires Sane(capacity, b) && |b.queue| > 0
    ensures (exists k: nat :: b.queue[0] in Run(capacity, rps, b, OnlyRefills(k)).granted) <==>
            PerRefill(capacity, rps) >= 1
  {
    if PerRefill(capacity, rps) >= 1 {
      var once := OnlyRefills(1);
      assert once[..0] == [];
      assert Refills(once) == 1;
      WaitIsBounded(capacity, rps, b, 1, once);
    } else {
      forall k: nat ensures b.queue[0] !in Run(capacity, rps, b, OnlyRefills(k)).granted {
        Starvation(capacity, rps, b, OnlyRefills(k));
        WaitingIsNotGranted(capacity, b);
      }
    }
  }

  lemma WaitingIsNotGranted(capacity: nat, b: Bucket)
    requires Sane(capacity, b) && |b.queue| > 0
    ensures b.queue[0] !in b.granted
  {
    var all := b.granted + b.queue + b.rejected;
    assert b.queue[0] == all[|b.granted|] == |b.granted|;
    forall i | 0 <= i < |b.granted| ensures b.granted[i] != b.queue[0] {
      assert b.granted[i] == all[i] == i;
    }
  }

  // ----- the configured limiter -----

  const DEFAULT_MAX_RPS := 8

  /** A configured number; None when it is missing or not a finite number. */
  function PositiveInteger(raw: Option<real>, fallback: nat): nat {
    if raw.None? || raw.value <= 0.0 then fallback else Floor(raw.value)
  }

  function MaxRps(rawRps: Option<real>): nat { PositiveInteger(rawRps, DEFAULT_MAX_RPS) }

  function Capacity(rawRps: Option<real>, rawBurst: Option<real>): nat { PositiveInteger(rawBurst, MaxRps(rawRps)) }

  predicate BelowOne(raw: Option<real>) { raw.Some? && 0.0 < raw.value < 1.0 }

  /** The limiter serves its waiters exactly when neither setting is a positive
      number below one: such a number counts as positive and is rounded to 0. */
  lemma ServesIff(rawRps: Option<real>, rawBurst: Option<real>)
    ensures PerRefill(Capacity(rawRps, rawBurst), MaxRps(rawRps)) >= 1 <==> !BelowOne(rawRps) && !BelowOne(rawBurst)
  {
  }
}
