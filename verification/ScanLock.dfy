/** The lock row of the scheduled scan, shared by all instances: acquire when it
    is free or expired, claim the result of one's own request, release. */
module ScanLock {
  import opened Numbers

  const LOCK_TTL_MINUTES := 30
  const CLAIM_TTL_MINUTES := 5

  /** The owner column: a request id, a handler of it, or its released mark. */
  datatype Owner = Requested(id: int) | Handling(id: int, instance: int) | Released(id: int)

  /** Times are in minutes. */
  datatype Row = Row(owner: Owner, lockedUntil: int)

  type Table = Option<Row>

  datatype Event =
    | Acquire(id: int, now: int)
    | Claim(id: int, instance: int, now: int)
    | ReleaseBy(owner: Owner, id: int, now: int)

  /** Inserts the row, or takes it over once its time has passed. */
  function DoAcquire(t: Table, id: int, now: int): (Table, bool) {
    if t.None? || t.value.lockedUntil <= now
    then (Some(Row(Requested(id), now + LOCK_TTL_MINUTES)), true)
    else (t, false)
  }

  function DoClaim(t: Table, id: int, instance: int, now: int): (Table, bool) {
    if t.Some? && t.value.owner == Requested(id)
    then (Some(Row(Handling(id, instance), MaxInt(t.value.lockedUntil, now + CLAIM_TTL_MINUTES))), true)
    else (t, false)
  }

  function DoRelease(t: Table, owner: Owner, id: int, now: int): (Table, bool) {
    if t.Some? && t.value.owner == owner then (Some(Row(Released(id), now)), true) else (t, false)
  }

  /** The table after one event, and whether the event changed a row. */
  function Step(t: Table, e: Event): (Table, bool) {
    match e
    case Acquire(id, now) => DoAcquire(t, id, now)
    case Claim(id, instance, now) => DoClaim(t, id, instance, now)
    case ReleaseBy(owner, id, now) => DoRelease(t, owner, id, now)
  }

  function Run(t: Table, es: seq<Event>): Table {
    if |es| == 0 then t else Step(Run(t, es[..|es| - 1]), es[|es| - 1]).0
  }

  /** Event `i` of the run took effect. */
  predicate Succeeds(t: Table, es: seq<Event>, i: nat)
    requires i < |es|
  {
    Step(Run(t, es[..i]), es[i]).1
  }

  predicate AcquiredAt(es: seq<Event>, i: nat)
    requires i < |es|
  {
    es[i].Acquire? && Succeeds(None, es, i)
  }

  predicate ReleasedAt(es: seq<Event>, i: nat)
    requires i < |es|
  {
    es[i].ReleaseBy? && Succeeds(None, es, i)
  }

  /** Every caller that releases names its own request: the one that asked, or a
      handler that claimed it. */
  predicate OwnRelease(e: Event) {
    e.ReleaseBy? ==> e.owner == Requested(e.id) || (e.owner.Handling? && e.owner.id == e.id)
  }

  /** Request ids are generated fresh for each acquire. */
  ghost predicate FreshIds(es: seq<Event>) {
    forall i, j :: 0 <= i < j < |es| && es[i].Acquire? && es[j].Acquire? ==> es[i].id != es[j].id
  }

  ghost predicate Protocol(es: seq<Event>) { FreshIds(es) && forall e :: e in es ==> OwnRelease(e) }

  lemma RunStep(t: Table, es: seq<Event>, i: nat)
    requires i < |es|
    ensures Run(t, es[..i + 1]) == Step(Run(t, es[..i]), es[i]).0
  {
    assert es[..i + 1][..i] == es[..i];
  }

  // ----- who owns the row -----

  /** The row, if it names a request at all, names the last one acquired. */
  ghost predicate NamesLast(t: Table, es: seq<Event>, n: nat, last: nat)
    requires n <= |es|
  {
    && last < n && AcquiredAt(es, last)
    && (forall k :: last < k < n ==> !AcquiredAt(es, k))
    && t.Some? && t.value.owner.id == es[last].id
  }

  /** After any prefix the table is empty, or its row belongs to the request of
      the last successful acquire. */
  lemma {:induction false} RowNamesLastAcquire(es: seq<Event>, n: nat) returns (last: Option<nat>)
    requires n <= |es| && Protocol(es)
    ensures last.None? ==> Run(None, es[..n]) == None
    ensures last.None? ==> forall k :: 0 <= k < n ==> !AcquiredAt(es, k)
    ensures last.Some? ==> NamesLast(Run(None, es[..n]), es, n, last.value)
  {
    if n == 0 {
      last := None;
    } else {
      last := RowNamesLastAcquire(es, n - 1);
      RunStep(None, es, n - 1);
      assert OwnRelease(es[n - 1]);
      if AcquiredAt(es, n - 1) {
        last := Some(n - 1);
      }
    }
  }

  /** A claim that succeeds is for the most recently acquired request. */
  lemma ClaimIsForLastAcquire(es: seq<Event>, i: nat) returns (last: nat)
    requires Protocol(es) && i < |es| && es[i].Claim? && Succeeds(None, es, i)
    ensures last < i && AcquiredAt(es, last) && es[last].id == es[i].id
    ensures forall k :: last < k < i ==> !AcquiredAt(es, k)
  {
    var found := RowNamesLastAcquire(es, i);
    last := found.value;
  }

  // ----- a request is spent once its row has left it -----

  predicate Spent(t: Table, id: int) { t.None? || t.value.owner != Requested(id) }

  /** Without another acquire of the id, it stays spent and cannot be claimed. */
  lemma {:induction false} SpentStaysSpent(es: seq<Event>, id: int, i: nat, j: nat)
    requires i <= j <= |es| && Spent(Run(None, es[..i]), id)
    requires forall k :: i <= k < j && es[k].Acquire? ==> es[k].id != id
    ensures Spent(Run(None, es[..j]), id)
  {
    if i < j {
      SpentStaysSpent(es, id, i, j - 1);
      RunStep(None, es, j - 1);
    }
  }

  lemma AcquiredBefore(es: seq<Event>, id: int, i: nat) returns (k: nat)
    requires Protocol(es) && i <= |es|
    requires Run(None, es[..i]).Some? && Run(None, es[..i]).value.owner.id == id
    ensures k < i && es[k].Acquire? && es[k].id == id
  {
    var last := RowNamesLastAcquire(es, i);
    k := last.value;
  }

  /** However often the result event is delivered and to however many instances,
      each request is claimed at most once. */
  lemma ClaimedAtMostOnce(es: seq<Event>, i: nat, j: nat)
    requires Protocol(es) && i < |es| && j < |es|
    requires es[i].Claim? && es[j].Claim? && es[i].id == es[j].id
    requires Succeeds(None, es, i) && Succeeds(None, es, j)
    ensures i == j
  {
    if i != j {
      var a, b := MinInt(i, j), MaxInt(i, j);
      RunStep(None, es, a);
      var k := AcquiredBefore(es, es[i].id, a);
      SpentStaysSpent(es, es[i].id, a + 1, b);
      assert false;
    }
  }

  /** Once released, a request can never be claimed. */
  lemma ReleasedIsNeverClaimed(es: seq<Event>, i: nat, j: nat)
    requires Protocol(es) && i < j < |es|
    requires es[i].ReleaseBy? && Succeeds(None, es, i)
    requires es[j].Claim? && es[j].id == es[i].id
    ensures !Succeeds(None, es, j)
  {
    RunStep(None, es, i);
    assert OwnRelease(es[i]);
    var k := AcquiredBefore(es, es[i].id, i);
    SpentStaysSpent(es, es[i].id, i + 1, j);
  }

  /** A release by anyone but the current owner changes nothing: in particular
      one for a request that a later acquire has replaced. */
  lemma SupersededReleaseIsNoOp(es: seq<Event>, i: nat, a: nat, b: nat)
    requires Protocol(es) && a < b < i < |es|
    requires es[a].Acquire? && es[b].Acquire? && Succeeds(None, es, b)
    requires es[i].ReleaseBy? && es[i].id == es[a].id
    ensures !Succeeds(None, es, i) && Run(None, es[..i + 1]) == Run(None, es[..i])
  {
    RunStep(None, es, i);
    assert OwnRelease(es[i]);
    var last := RowNamesLastAcquire(es, i);
    assert es[last.value].id != es[a].id by {
      assert AcquiredAt(es, b);
      assert b <= last.value;
    }
  }

  /** Event `k` takes the row away from request `id`: another acquire, or a claim
      or a release of it. */
  predicate TouchedAt(es: seq<Event>, id: int, k: nat)
    requires k < |es|
  {
    Succeeds(None, es, k) && (es[k].Acquire? || es[k].id == id)
  }

  ghost predicate Untouched(es: seq<Event>, id: int, from: nat, to: nat)
    requires from <= to <= |es|
  {
    forall k :: from <= k < to ==> !TouchedAt(es, id, k)
  }

  lemma UntouchedRow(t: Table, e: Event, id: int)
    requires OwnRelease(e) && t.Some? && t.value.owner == Requested(id)
    requires Step(t, e).1 ==> !e.Acquire? && e.id != id
    ensures Step(t, e).0 == t
  {
  }

  /** Then the row still waits for its claim. */
  lemma {:induction false} UntouchedStaysRequested(es: seq<Event>, id: int, from: nat, to: nat)
    requires Protocol(es) && from <= to <= |es| && Untouched(es, id, from, to)
    requires Run(None, es[..from]).Some? && Run(None, es[..from]).value.owner == Requested(id)
    ensures Run(None, es[..to]).Some? && Run(None, es[..to]).value.owner == Requested(id)
  {
    if from < to {
      UntouchedStaysRequested(es, id, from, to - 1);
      RunStep(None, es, to - 1);
      assert OwnRelease(es[to - 1]) && !TouchedAt(es, id, to - 1);
      UntouchedRow(Run(None, es[..to - 1]), es[to - 1], id);
    }
  }

  /** The request of acquire `last` still waits for its claim at moment `i`. */
  ghost predicate Claimable(es: seq<Event>, id: int, last: nat, i: nat)
    requires i <= |es|
  {
    last < i && AcquiredAt(es, last) && es[last].id == id && Untouched(es, id, last + 1, i)
  }

  /** A claim or a release of the request that succeeded earlier rules a claim out. */
  lemma TakenBefore(es: seq<Event>, k: nat, i: nat)
    requires Protocol(es) && k < i < |es| && es[i].Claim? && es[k].id == es[i].id
    requires Succeeds(None, es, k) && (es[k].Claim? || es[k].ReleaseBy?)
    ensures !Succeeds(None, es, i)
  {
    if es[k].ReleaseBy? {
      ReleasedIsNeverClaimed(es, k, i);
    } else if Succeeds(None, es, i) {
      ClaimedAtMostOnce(es, k, i);
    }
  }

  /** In every run a claim succeeds exactly when it is for the request of the last
      successful acquire, and no claim and no release of it succeeded since. Time
      plays no part: an expired request can be claimed as long as nobody acquires. */
  lemma ClaimSucceedsIff(es: seq<Event>, i: nat)
    requires Protocol(es) && i < |es| && es[i].Claim?
    ensures Succeeds(None, es, i) <==> exists last :: Claimable(es, es[i].id, last, i)
  {
    if Succeeds(None, es, i) {
      var last := ClaimIsForLastAcquire(es, i);
      forall k | last < k < i ensures !TouchedAt(es, es[i].id, k) {
        assert !AcquiredAt(es, k);
        if Succeeds(None, es, k) && !es[k].Acquire? && es[k].id == es[i].id {
          TakenBefore(es, k, i);
        }
      }
      assert Claimable(es, es[i].id, last, i);
    }
    if last: nat :| Claimable(es, es[i].id, last, i) {
      RunStep(None, es, last);
      UntouchedStaysRequested(es, es[i].id, last + 1, i);
    }
  }

  // ----- time -----

  ghost predicate ClockRuns(es: seq<Event>) { forall i, j :: 0 <= i < j < |es| ==> es[i].now <= es[j].now }

  /** Unreleased, the row stays locked at least until `until`. */
  lemma {:induction false} StaysLocked(es: seq<Event>, i: nat, j: nat, until: int)
    requires i <= j <= |es|
    requires Run(None, es[..i]).Some? && until <= Run(None, es[..i]).value.lockedUntil
    requires forall k :: i <= k < j ==> es[k].now < until && !ReleasedAt(es, k)
    ensures Run(None, es[..j]).Some? && until <= Run(None, es[..j]).value.lockedUntil
    ensures forall k :: i <= k < j ==> !AcquiredAt(es, k)
  {
    if i < j {
      StaysLocked(es, i, j - 1, until);
      RunStep(None, es, j - 1);
    }
  }

  /** Two scans are started within the lock time only if the first was released
      in between. */
  lemma AcquiresAreApart(es: seq<Event>, a: nat, b: nat)
    requires a < b < |es| && es[a].Acquire? && es[b].Acquire? && ClockRuns(es)
    requires Succeeds(None, es, a) && Succeeds(None, es, b)
    requires forall k :: a < k < b ==> !ReleasedAt(es, k)
    ensures es[a].now + 30 <= es[b].now
  {
    RunStep(None, es, a);
    if es[b].now < es[a].now + LOCK_TTL_MINUTES {
      StaysLocked(es, a + 1, b, es[a].now + LOCK_TTL_MINUTES);
    }
  }

  /** Until when the row is locked, read off the events that took effect: half an hour
      after an acquire, at least five minutes after a claim, no more after a release. */
  function LockedUntil(es: seq<Event>): Option<int> {
    if |es| == 0 then None
    else
      var n := |es| - 1;
      var before := LockedUntil(es[..n]);
      if !Step(Run(None, es[..n]), es[n]).1 then before
      else
        match es[n]
        case Acquire(_, now) => Some(now + 30)
        case Claim(_, _, now) => if before.Some? && before.value > now + 5 then before else Some(now + 5)
        case ReleaseBy(_, _, now) => Some(now)
  }

  /** Whose the row is: of the request, of the instance that handles it, or nobody's. */
  function OwnedBy(es: seq<Event>): Option<Owner> {
    if |es| == 0 then None
    else
      var n := |es| - 1;
      if !Step(Run(None, es[..n]), es[n]).1 then OwnedBy(es[..n])
      else
        match es[n]
        case Acquire(id, _) => Some(Requested(id))
        case Claim(id, instance, _) => Some(Handling(id, instance))
        case ReleaseBy(_, id, _) => Some(Released(id))
  }

  lemma {:induction false} RowIsRecalled(es: seq<Event>)
    ensures var t := Run(None, es);
      && LockedUntil(es) == (if t.Some? then Some(t.value.lockedUntil) else None)
      && OwnedBy(es) == (if t.Some? then Some(t.value.owner) else None)
  {
    if |es| > 0 {
      RowIsRecalled(es[..|es| - 1]);
    }
  }

  /** In every run: an acquire succeeds exactly when the row was never locked or its
      time has come, and a release exactly when it names the owner. */
  lemma SucceedsIff(es: seq<Event>, i: nat)
    requires i < |es|
    ensures es[i].Acquire? ==>
      (Succeeds(None, es, i) <==> LockedUntil(es[..i]).None? || LockedUntil(es[..i]).value <= es[i].now)
    ensures es[i].ReleaseBy? ==> (Succeeds(None, es, i) <==> OwnedBy(es[..i]) == Some(es[i].owner))
  {
    RowIsRecalled(es[..i]);
  }

  /** An expired request may still be claimed, as long as nobody took the row. */
  lemma LateClaimSucceeds(id: int, instance: int, start: int, late: int)
    requires start + LOCK_TTL_MINUTES < late
    ensures Succeeds(None, [Acquire(id, start), Claim(id, instance, late)], 1)
  {
    var es := [Acquire(id, start), Claim(id, instance, late)];
    RunStep(None, es, 0);
    assert Run(None, es[..0]) == None;
  }
}
