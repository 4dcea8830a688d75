/** When two automatic sells of one session can be at the broker at once. */
module LiveSells {
  import opened Numbers
  import opened SellLock
  import L = OrderLedger

  // ----- what the service can see of its requests -----

  /** A sell the broker may still fill, or that may still reach it. */
  predicate Live(s: State, k: nat) { k < |s.orders| && !s.orders[k].ended }

  predicate LiveOf(s: State, sid: int, k: nat) { Live(s, k) && s.orders[k].sid == sid }

  /** A call still waits for the reply or writes the row. */
  predicate InHand(s: State, k: nat) { exists c :: c in s.calls && Handled(s.calls[c]) == Some(k) }

  /** The history shows the sell as open. */
  predicate Shown(rows: seq<Row>, k: nat) { exists i :: 0 <= i < |rows| && rows[i].open && rows[i].order == Some(k) }

  /** A live sell that nothing in the service remembers as open. */
  ghost predicate Stray(s: State, k: nat) { Live(s, k) && !InHand(s, k) && !Shown(s.rows, k) }

  ghost predicate NoStray(s: State, sid: int) { forall k :: LiveOf(s, sid, k) ==> !Stray(s, k) }

  ghost predicate AtMostOneLive(s: State, sid: int) {
    forall j, k :: LiveOf(s, sid, j) && LiveOf(s, sid, k) ==> j == k
  }

  /** The step sends a sell of the session. */
  predicate Sends(s: State, e: Event, sid: int) {
    e.Sent? && e.ok && At(s, e.call, Preparing) && s.calls[e.call].sid == sid
  }

  /** Past the lookup of a call no sell of its session is shown. */
  lemma NoneShown(s: State, sid: int, k: nat, c: int)
    requires Safe(s) && LiveOf(s, sid, k) && c in s.calls && s.calls[c].sid == sid && Committed(s.calls[c].phase)
    ensures !Shown(s.rows, k)
  {
    assert NoOpenSell(s.rows, sid);
    forall i | 0 <= i < |s.rows| ensures !(s.rows[i].open && s.rows[i].order == Some(k)) {
      assert RowLinked(s.orders, s.rows[i]) && !OpenSellOf(s.rows[i], sid);
    }
  }

  /** A call handles one request, and while it does no row of its session is open. */
  lemma HandledIsAlone(s: State, sid: int, j: nat, k: nat)
    requires Safe(s) && LiveOf(s, sid, j) && LiveOf(s, sid, k) && InHand(s, j) && j != k
    ensures !InHand(s, k) && !Shown(s.rows, k)
  {
    var c :| c in s.calls && Handled(s.calls[c]) == Some(j);
    assert CallLinked(s.orders, s.rows, s.calls[c]) && Committed(s.calls[c].phase);
    NoneShown(s, sid, k, c);
    forall d | d in s.calls ensures Handled(s.calls[d]) != Some(k) {
      assert CallLinked(s.orders, s.rows, s.calls[d]);
    }
  }

  lemma ShownIsAlone(s: State, sid: int, j: nat, k: nat)
    requires Safe(s) && LiveOf(s, sid, j) && LiveOf(s, sid, k) && Shown(s.rows, j) && j != k
    ensures !Shown(s.rows, k)
  {
    var a :| 0 <= a < |s.rows| && s.rows[a].open && s.rows[a].order == Some(j);
    assert RowLinked(s.orders, s.rows[a]) && OpenSellOf(s.rows[a], sid);
    forall i | 0 <= i < |s.rows| ensures !(s.rows[i].open && s.rows[i].order == Some(k)) {
      assert RowLinked(s.orders, s.rows[i]);
      assert i != a ==> !OpenSellOf(s.rows[i], sid);
    }
  }

  /** Of the live sells of a session all but one are strays: a call handles one
      request, and while it does, or a row is open, no other is. */
  lemma AllButOneAreStrays(s: State, sid: int, j: nat, k: nat)
    requires Safe(s) && LiveOf(s, sid, j) && LiveOf(s, sid, k) && j != k
    ensures Stray(s, j) || Stray(s, k)
  {
    if InHand(s, j) {
      HandledIsAlone(s, sid, j, k);
    } else if InHand(s, k) {
      HandledIsAlone(s, sid, k, j);
    } else if Shown(s.rows, j) {
      ShownIsAlone(s, sid, j, k);
    }
  }

  /** When a call is about to send, every live sell of its session is a stray. */
  lemma OthersAreStrays(s: State, e: Event, sid: int, k: nat)
    requires Safe(s) && Sends(s, e, sid) && LiveOf(s, sid, k)
    ensures Stray(s, k)
  {
    NoneShown(s, sid, k, e.call);
    forall c | c in s.calls ensures Handled(s.calls[c]) != Some(k) {
      assert CallLinked(s.orders, s.rows, s.calls[c]);
    }
  }

  // ----- at most one live sell -----

  /** A sell that is sent is the only one of its session exactly when no stray of
      it is left. */
  lemma SendIsAloneIff(s: State, e: Event, sid: int)
    requires Safe(s) && Sends(s, e, sid)
    ensures AtMostOneLive(Step(s, e), sid) <==> NoStray(s, sid)
  {
    var t, n := Step(s, e), |s.orders|;
    assert LiveOf(t, sid, n);
    if NoStray(s, sid) {
      forall k | LiveOf(t, sid, k) ensures k == n {
        if k != n {
          assert LiveOf(s, sid, k);
          OthersAreStrays(s, e, sid, k);
        }
      }
    } else {
      var k :| LiveOf(s, sid, k) && Stray(s, k);
      assert LiveOf(t, sid, k);
    }
  }

  /** No other step adds a live sell. */
  lemma OtherStepsAddNone(s: State, e: Event, sid: int, k: nat)
    requires !Sends(s, e, sid) && LiveOf(Step(s, e), sid, k)
    ensures LiveOf(s, sid, k)
  {
  }

  ghost predicate NeverSendsPastStray(s: State, es: seq<Event>, sid: int) {
    forall n :: 0 <= n < |es| && Sends(Run(s, es[..n]), es[n], sid) ==> NoStray(Run(s, es[..n]), sid)
  }

  ghost predicate AlwaysAtMostOneLive(s: State, es: seq<Event>, sid: int) {
    forall n :: 0 <= n <= |es| ==> AtMostOneLive(Run(s, es[..n]), sid)
  }

  lemma {:induction false} OneLiveUpTo(s: State, es: seq<Event>, sid: int, n: nat)
    requires Idle(s) && n <= |es| && NeverSendsPastStray(s, es, sid)
    ensures AtMostOneLive(Run(s, es[..n]), sid)
  {
    if n > 0 {
      var before, e := Run(s, es[..n - 1]), es[n - 1];
      OneLiveUpTo(s, es, sid, n - 1);
      RunNext(s, es, n - 1);
      RunKeepsSafe(s, es[..n - 1]);
      if Sends(before, e, sid) {
        SendIsAloneIff(before, e, sid);
      } else {
        forall k | LiveOf(Step(before, e), sid, k) ensures LiveOf(before, sid, k) {
          OtherStepsAddNone(before, e, sid, k);
        }
      }
    }
  }

  /** However many callers interleave: a session has at most one live sell all
      along exactly when none is sent for it while an earlier one is a stray. */
  lemma OneLiveIffNoStray(s: State, es: seq<Event>, sid: int)
    requires Idle(s)
    ensures AlwaysAtMostOneLive(s, es, sid) <==> NeverSendsPastStray(s, es, sid)
  {
    if NeverSendsPastStray(s, es, sid) {
      forall n | 0 <= n <= |es| ensures AtMostOneLive(Run(s, es[..n]), sid) {
        OneLiveUpTo(s, es, sid, n);
      }
    }
    if AlwaysAtMostOneLive(s, es, sid) {
      forall n | 0 <= n < |es| && Sends(Run(s, es[..n]), es[n], sid) ensures NoStray(Run(s, es[..n]), sid) {
        RunKeepsSafe(s, es[..n]);
        RunNext(s, es, n);
        assert AtMostOneLive(Run(s, es[..n + 1]), sid);
        SendIsAloneIff(Run(s, es[..n]), es[n], sid);
      }
    }
  }

  // ----- where strays come from -----

  /** The write fails; or it records an order without a good reply, as after a
      timeout; or the row is closed while the broker may still fill the order. */
  ghost predicate LosesSight(s: State, e: Event, k: nat) {
    || (e.Written? && !e.ok && IsSaving(s, e.call) && s.calls[e.call].phase.order == k)
    || (e.Written? && IsSaving(s, e.call) && s.calls[e.call].phase == Saving(k, false))
    || (e.RowClosed? && e.row < |s.rows| && s.rows[e.row].open && s.rows[e.row].order == Some(k))
    || (e.Filled? && e.row < |s.rows| && s.rows[e.row].open && s.rows[e.row].order == Some(k)
        && !FillRow(s.rows[e.row], e.qty).open)
  }

  /** Changing one row, which does not open it: a sell goes out of sight exactly
      when this was its open row and it closes. */
  lemma RowLosesSightIff(s: State, i: nat, r: Row, k: nat)
    requires Safe(s) && Live(s, k) && !Stray(s, k) && i < |s.rows|
    requires r.order == s.rows[i].order && (r.open ==> s.rows[i].open)
    ensures Shown(s.rows[i := r], k) || InHand(s, k) <==> !(s.rows[i].open && s.rows[i].order == Some(k) && !r.open)
  {
    if Shown(s.rows, k) {
      var a :| 0 <= a < |s.rows| && s.rows[a].open && s.rows[a].order == Some(k);
      forall c | c in s.calls ensures Handled(s.calls[c]) != Some(k) {
        assert CallLinked(s.orders, s.rows, s.calls[c]);
      }
      assert s.rows[i := r][a] == if a == i then r else s.rows[a];
    } else {
      var c :| c in s.calls && Handled(s.calls[c]) == Some(k);
      assert CallLinked(s.orders, s.rows, s.calls[c]);
    }
  }

  lemma RowAddedKeepsSight(s: State, r: Row, k: nat)
    requires Shown(s.rows, k)
    ensures Shown(s.rows + [r], k)
  {
    var a :| 0 <= a < |s.rows| && s.rows[a].open && s.rows[a].order == Some(k);
    assert (s.rows + [r])[a] == s.rows[a];
  }

  /** Only its write takes a request out of the hands of its call. */
  lemma HandlingStays(s: State, e: Event, c: int, k: nat)
    requires c in s.calls && Handled(s.calls[c]) == Some(k) && !e.Written?
    ensures c in Step(s, e).calls && Handled(Step(s, e).calls[c]) == Some(k)
  {
  }

  lemma CallsKeepSight(s: State, e: Event, k: nat)
    requires Live(s, k) && !Stray(s, k) && !e.Written? && Step(s, e).rows == s.rows
    ensures !Stray(Step(s, e), k)
  {
    if InHand(s, k) {
      var c :| c in s.calls && Handled(s.calls[c]) == Some(k);
      HandlingStays(s, e, c, k);
      assert InHand(Step(s, e), k);
    }
  }

  lemma WriteLosesSightIff(s: State, c: int, ok: bool, k: nat)
    requires Safe(s) && Live(s, k) && !Stray(s, k) && IsSaving(s, c)
    ensures Stray(Step(s, Written(c, ok)), k) <==> LosesSight(s, Written(c, ok), k)
  {
    var t, order := Step(s, Written(c, ok)), s.calls[c].phase.order;
    assert CallLinked(s.orders, s.rows, s.calls[c]);
    if order != k {
      if Shown(s.rows, k) {
        var i :| 0 <= i < |s.rows| && s.rows[i].open && s.rows[i].order == Some(k);
        assert t.rows[i] == s.rows[i];
      } else {
        var d :| d in s.calls && Handled(s.calls[d]) == Some(k);
        assert d != c && d in t.calls && Handled(t.calls[d]) == Some(k);
      }
    } else if ok && s.calls[c].phase.accepted {
      var i := |s.rows|;
      assert t.rows[i].open && t.rows[i].order == Some(k);
    } else {
      forall d | d in t.calls ensures Handled(t.calls[d]) != Some(k) {
        assert d != c ==> CallLinked(s.orders, s.rows, s.calls[d]);
      }
    }
  }

  /** What a step on row `i` makes of it. */
  function RowAfter(s: State, e: Event): Row
    requires (e.Filled? || e.RowClosed?) && e.row < |s.rows|
  {
    if e.RowClosed? then s.rows[e.row].(open := false)
    else if s.rows[e.row].open then FillRow(s.rows[e.row], e.qty) else s.rows[e.row]
  }

  lemma RowStepIs(s: State, e: Event)
    requires (e.Filled? || e.RowClosed?) && e.row < |s.rows|
    ensures var t := Step(s, e);
      t.rows == s.rows[e.row := RowAfter(s, e)] && t.calls == s.calls && t.orders == s.orders
  {
  }

  lemma RowStepLosesSightIff(s: State, e: Event, k: nat)
    requires Safe(s) && Live(s, k) && !Stray(s, k) && (e.Filled? || e.RowClosed?)
    ensures Stray(Step(s, e), k) <==> LosesSight(s, e, k)
  {
    if e.row < |s.rows| {
      RowStepIs(s, e);
      RowLosesSightIff(s, e.row, RowAfter(s, e), k);
      assert InHand(Step(s, e), k) <==> InHand(s, k);
    }
  }

  lemma OtherOrderKeepsSight(s: State, e: Event, k: nat)
    requires Live(s, k) && !Stray(s, k) && e.OtherOrder?
    ensures !Stray(Step(s, e), k)
  {
    if Shown(s.rows, k) {
      RowAddedKeepsSight(s, Row(e.user, e.stock, e.session, e.side, e.qty, 0, None, true), k);
    } else {
      assert InHand(Step(s, e), k) <==> InHand(s, k);
    }
  }

  /** Exactly which steps turn a live sell into a stray. */
  lemma BecomesStrayIff(s: State, e: Event, k: nat)
    requires Safe(s) && Live(s, k) && !Stray(s, k)
    ensures Stray(Step(s, e), k) <==> LosesSight(s, e, k)
  {
    if e.Written? {
      if IsSaving(s, e.call) {
        WriteLosesSightIff(s, e.call, e.ok, k);
      }
    } else if e.Filled? || e.RowClosed? {
      RowStepLosesSightIff(s, e, k);
    } else if e.OtherOrder? {
      OtherOrderKeepsSight(s, e, k);
    } else {
      CallsKeepSight(s, e, k);
    }
  }

  /** A sell that is sent starts in the hands of its call. */
  lemma NewIsInHand(s: State, e: Event, k: nat)
    requires k >= |s.orders|
    ensures !Stray(Step(s, e), k)
  {
    var t := Step(s, e);
    if Live(t, k) {
      assert e.call in t.calls && Handled(t.calls[e.call]) == Some(k);
    }
  }

  /** No step takes up a request that a call does not handle already. */
  lemma NothingTakesUp(s: State, e: Event, c: int, k: nat)
    requires k < |s.orders| && c in Step(s, e).calls && Handled(Step(s, e).calls[c]) == Some(k)
    ensures c in s.calls && Handled(s.calls[c]) == Some(k)
  {
  }

  /** No step shows a request that was neither shown nor in the hands of a call. */
  lemma NothingShows(s: State, e: Event, k: nat)
    requires !Shown(s.rows, k) && !InHand(s, k)
    ensures !Shown(Step(s, e).rows, k)
  {
  }

  /** A stray stays one until it ends. */
  lemma StraysStay(s: State, e: Event, k: nat)
    requires Stray(s, k)
    ensures Stray(Step(s, e), k) <==> Live(Step(s, e), k)
  {
    var t := Step(s, e);
    NothingShows(s, e, k);
    if InHand(t, k) {
      var c :| c in t.calls && Handled(t.calls[c]) == Some(k);
      NothingTakesUp(s, e, c, k);
    }
  }

  lemma StrayNext(s: State, e: Event, k: nat)
    requires Safe(s)
    ensures Stray(Step(s, e), k) <==>
      Live(Step(s, e), k) && (Stray(s, k) || (Live(s, k) && LosesSight(s, e, k)))
  {
    if Stray(s, k) {
      StraysStay(s, e, k);
    } else if Live(s, k) {
      BecomesStrayIff(s, e, k);
    } else if k >= |s.orders| {
      NewIsInHand(s, e, k);
    }
  }

  /** Step `m` of the run loses sight of a live sell. */
  ghost predicate LostAt(s: State, es: seq<Event>, k: nat, m: nat) {
    m < |es| && Live(Run(s, es[..m]), k) && LosesSight(Run(s, es[..m]), es[m], k)
  }

  lemma LostBefore(s: State, es: seq<Event>, k: nat, n: nat, m: nat)
    requires m < n <= |es|
    ensures LostAt(s, es[..n], k, m) <==> LostAt(s, es, k, m)
  {
    assert es[..n][..m] == es[..m];
  }

  lemma LostNext(s: State, es: seq<Event>, k: nat)
    requires |es| > 0
    ensures var n := |es| - 1;
      (exists m :: LostAt(s, es, k, m)) <==>
      (exists m :: LostAt(s, es[..n], k, m)) || (Live(Run(s, es[..n]), k) && LosesSight(Run(s, es[..n]), es[n], k))
  {
    var n := |es| - 1;
    forall m: nat | m < n ensures LostAt(s, es[..n], k, m) <==> LostAt(s, es, k, m) {
      LostBefore(s, es, k, n, m);
    }
    if m: nat :| LostAt(s, es, k, m) {
      assert m < n ==> LostAt(s, es[..n], k, m);
    }
    if m: nat :| LostAt(s, es[..n], k, m) {
      assert LostAt(s, es, k, m);
    }
    if Live(Run(s, es[..n]), k) && LosesSight(Run(s, es[..n]), es[n], k) {
      assert LostAt(s, es, k, n);
    }
  }

  /** Requests are numbered for good, and an ended one stays ended. */
  lemma LiveWasLive(s: State, e: Event, k: nat)
    ensures |s.orders| <= |Step(s, e).orders|
    ensures k < |s.orders| && Live(Step(s, e), k) ==> Live(s, k)
  {
  }

  /** The broker has ended request k in a run. */
  ghost predicate EndedIn(s: State, es: seq<Event>, k: nat) {
    exists n :: 0 <= n < |es| && es[n] == Ended(k) && k < |Run(s, es[..n]).orders|
  }

  lemma EndedNext(s: State, es: seq<Event>, k: nat)
    requires |es| > 0
    ensures var init := es[..|es| - 1];
      EndedIn(s, es, k) <==> EndedIn(s, init, k) || (es[|es| - 1] == Ended(k) && k < |Run(s, init).orders|)
  {
    var init := es[..|es| - 1];
    if n :| 0 <= n < |init| && init[n] == Ended(k) && k < |Run(s, init[..n]).orders| {
      assert es[..n] == init[..n] && es[n] == Ended(k);
    }
    if n :| 0 <= n < |es| && es[n] == Ended(k) && k < |Run(s, es[..n]).orders| && n < |es| - 1 {
      assert es[..n] == init[..n] && init[n] == Ended(k);
    }
  }

  lemma LiveNext(s: State, e: Event, k: nat)
    ensures |s.orders| <= |Step(s, e).orders|
    ensures Live(Step(s, e), k) <==> k < |Step(s, e).orders| && (k < |s.orders| ==> Live(s, k) && e != Ended(k))
  {
  }

  /** In every run a request is live from when it is sent until the broker ends it. */
  lemma {:induction false} LiveUntilEnded(s: State, es: seq<Event>, k: nat)
    requires |s.orders| == 0
    ensures Live(Run(s, es), k) <==> k < |Run(s, es).orders| && !EndedIn(s, es, k)
    ensures EndedIn(s, es, k) ==> k < |Run(s, es).orders|
  {
    if |es| > 0 {
      LiveUntilEnded(s, es[..|es| - 1], k);
      EndedNext(s, es, k);
      LiveNext(Run(s, es[..|es| - 1]), es[|es| - 1], k);
    }
  }

  lemma StrayAfter(s: State, es: seq<Event>, k: nat)
    requires Idle(s) && |es| > 0
    ensures var before, after, e := Run(s, es[..|es| - 1]), Run(s, es), es[|es| - 1];
      && |before.orders| <= |after.orders| && (k < |before.orders| && Live(after, k) ==> Live(before, k))
      && (Stray(after, k) <==> Live(after, k) && (Stray(before, k) || (Live(before, k) && LosesSight(before, e, k))))
  {
    RunKeepsSafe(s, es[..|es| - 1]);
    StrayNext(Run(s, es[..|es| - 1]), es[|es| - 1], k);
    LiveWasLive(Run(s, es[..|es| - 1]), es[|es| - 1], k);
  }

  /** A sell is a stray exactly when sight of it was lost and it has not ended. */
  lemma {:induction false} StrayIff(s: State, es: seq<Event>, k: nat)
    requires Idle(s)
    ensures Stray(Run(s, es), k) <==> Live(Run(s, es), k) && exists m :: LostAt(s, es, k, m)
    ensures (exists m :: LostAt(s, es, k, m)) ==> k < |Run(s, es).orders|
  {
    if |es| > 0 {
      StrayIff(s, es[..|es| - 1], k);
      LostNext(s, es, k);
      StrayAfter(s, es, k);
    }
  }

  /** A live sell of the session that an earlier step of the run lost sight of. */
  ghost predicate LostAndLive(s: State, es: seq<Event>, sid: int, k: nat) {
    LiveOf(Run(s, es), sid, k) && exists m :: LostAt(s, es, k, m)
  }

  ghost predicate NeverSendsPastLost(s: State, es: seq<Event>, sid: int) {
    forall n :: 0 <= n < |es| && Sends(Run(s, es[..n]), es[n], sid) ==> forall k :: !LostAndLive(s, es[..n], sid, k)
  }

  lemma NoStrayIff(s: State, es: seq<Event>, sid: int)
    requires Idle(s)
    ensures NoStray(Run(s, es), sid) <==> forall k :: !LostAndLive(s, es, sid, k)
  {
    forall k: nat ensures LostAndLive(s, es, sid, k) <==> LiveOf(Run(s, es), sid, k) && Stray(Run(s, es), k) {
      StrayIff(s, es, k);
    }
  }

  /** The main result. In every interleaving a session has at most one sell at
      the broker all along exactly when none is sent for it after a write failed,
      a reply was lost or a row was closed too early, and before the broker ended
      the order this happened to. */
  lemma NeverTwoSellsIff(s: State, es: seq<Event>, sid: int)
    requires Idle(s)
    ensures AlwaysAtMostOneLive(s, es, sid) <==> NeverSendsPastLost(s, es, sid)
  {
    OneLiveIffNoStray(s, es, sid);
    forall n | 0 <= n < |es|
      ensures NoStray(Run(s, es[..n]), sid) <==> forall k :: !LostAndLive(s, es[..n], sid, k)
    {
      NoStrayIff(s, es[..n], sid);
    }
  }

  // ----- one sell after another -----

  /** A sell of one session left alone, from the call to the release. */
  function SellOnce(c: int, sid: int, sellQty: Option<int>, pause: bool, accepted: bool, ok: bool): seq<Event> {
    [Entered(c, sid, sellQty, pause)] + [LookedUp(c, false)] + [TrackingReady(c)] + [Sent(c, true)]
    + [Replied(c, accepted)] + [Written(c, ok)] + [Flushed(c)]
  }

  lemma SellOnceSteps(s: State, c: int, sid: int, sellQty: Option<int>, pause: bool, accepted: bool, ok: bool)
    ensures var s1 := Step(Step(s, Entered(c, sid, sellQty, pause)), LookedUp(c, false));
      var s2 := Step(Step(s1, TrackingReady(c)), Sent(c, true));
      Run(s, SellOnce(c, sid, sellQty, pause, accepted, ok))
      == Step(Step(Step(s2, Replied(c, accepted)), Written(c, ok)), Flushed(c))
  {
    var e1, e2, e3, e4 := Entered(c, sid, sellQty, pause), LookedUp(c, false), TrackingReady(c), Sent(c, true);
    var e5, e6 := Replied(c, accepted), Written(c, ok);
    RunOne(s, e1);
    RunThen(s, [e1], e2);
    RunThen(s, [e1] + [e2], e3);
    RunThen(s, [e1] + [e2] + [e3], e4);
    RunThen(s, [e1] + [e2] + [e3] + [e4], e5);
    RunThen(s, [e1] + [e2] + [e3] + [e4] + [e5], e6);
    RunThen(s, [e1] + [e2] + [e3] + [e4] + [e5] + [e6], Flushed(c));
  }

  function AskedQty(s: State, sid: int, sellQty: Option<int>): int
    requires sid in s.holding
  {
    MinInt(if sellQty.Some? then sellQty.value else s.holding[sid], s.holding[sid])
  }

  /** A sell of all the shares pauses its session, one of a part if it says so. */
  predicate Pauses(s: State, sid: int, sellQty: Option<int>, pause: bool)
    requires sid in s.holding
  {
    AskedQty(s, sid, sellQty) >= s.holding[sid] || pause
  }

  /** The guards of a sell before its first await. */
  predicate MayEnter(s: State, c: int, sid: int, sellQty: Option<int>) {
    && c !in s.calls && Known(s, sid) && s.holding[sid] > 0 && sid !in s.pending && sid !in s.locked
    && AskedQty(s, sid, sellQty) > 0
  }

  predicate MaySell(s: State, c: int, sid: int, sellQty: Option<int>) {
    MayEnter(s, c, sid, sellQty) && !HasOpenRow(s, s.owners[sid])
  }

  /** The session after a sell of its own: one more order, its row if it was
      written, and the pending flag if the sell was taken and pauses. */
  function Sold(s: State, sid: int, sellQty: Option<int>, pause: bool, accepted: bool, ok: bool): State
    requires Known(s, sid)
  {
    var o, qty := s.owners[sid], AskedQty(s, sid, sellQty);
    s.(orders := s.orders + [Order(sid, qty, false)],
       rows := if ok then s.rows + [Row(o.user, o.stock, Some(sid), L.Sell, qty, 0, Some(|s.orders|), accepted)]
               else s.rows,
       pending := if accepted && Pauses(s, sid, sellQty, pause) then s.pending + {sid} else s.pending)
  }

  /** The state in which the sell of a session waits in a phase. */
  function Midway(s: State, c: int, sid: int, sellQty: Option<int>, pause: bool, phase: Phase): State
    requires sid in s.holding
  {
    s.(locked := s.locked + {sid},
       calls := s.calls[c := Call(sid, AskedQty(s, sid, sellQty), Pauses(s, sid, sellQty, pause), phase)])
  }

  lemma SellReachesBroker(s: State, c: int, sid: int, sellQty: Option<int>, pause: bool)
    requires MaySell(s, c, sid, sellQty)
    ensures var s1 := Step(Step(s, Entered(c, sid, sellQty, pause)), LookedUp(c, false));
      Step(Step(s1, TrackingReady(c)), Sent(c, true))
      == Midway(s, c, sid, sellQty, pause, Waiting(|s.orders|)).(
           orders := s.orders + [Order(sid, AskedQty(s, sid, sellQty), false)])
  {
    assert Step(s, Entered(c, sid, sellQty, pause)) == Midway(s, c, sid, sellQty, pause, Looking);
    assert !HasOpenRow(Midway(s, c, sid, sellQty, pause, Looking), s.owners[sid]);
    assert Step(Midway(s, c, sid, sellQty, pause, Looking), LookedUp(c, false))
        == Midway(s, c, sid, sellQty, pause, Tracking);
    assert Step(Midway(s, c, sid, sellQty, pause, Tracking), TrackingReady(c))
        == Midway(s, c, sid, sellQty, pause, Preparing);
  }

  /** From the reply to the release. */
  lemma SellEnds(s: State, c: int, sid: int, sellQty: Option<int>, pause: bool, accepted: bool, ok: bool)
    requires MaySell(s, c, sid, sellQty)
    ensures var orders := s.orders + [Order(sid, AskedQty(s, sid, sellQty), false)];
      var saving := Midway(s, c, sid, sellQty, pause, Saving(|s.orders|, accepted)).(orders := orders);
      Step(Step(saving, Written(c, ok)), Flushed(c)) == Sold(s, sid, sellQty, pause, accepted, ok)
  {
    var m := Midway(s, c, sid, sellQty, pause, Looking);
    assert m.calls - {c} == s.calls && m.locked - {sid} == s.locked;
    var orders := s.orders + [Order(sid, AskedQty(s, sid, sellQty), false)];
    var saving := Midway(s, c, sid, sellQty, pause, Saving(|s.orders|, accepted)).(orders := orders);
    var t := Step(saving, Written(c, ok));
    if accepted {
      assert t.calls - {c} == s.calls;
    } else {
      assert saving.calls - {c} == s.calls;
    }
  }

  /** Left alone, a sell writes its one row, open after a good reply and failed
      without one, or none if the write fails. A good reply raises the pending flag
      of a sell that pauses, written down or not; the rest is as before. */
  lemma LoneSell(s: State, c: int, sid: int, sellQty: Option<int>, pause: bool, accepted: bool, ok: bool)
    requires MaySell(s, c, sid, sellQty)
    ensures Run(s, SellOnce(c, sid, sellQty, pause, accepted, ok)) == Sold(s, sid, sellQty, pause, accepted, ok)
  {
    var orders := s.orders + [Order(sid, AskedQty(s, sid, sellQty), false)];
    var waiting := Midway(s, c, sid, sellQty, pause, Waiting(|s.orders|)).(orders := orders);
    SellOnceSteps(s, c, sid, sellQty, pause, accepted, ok);
    SellReachesBroker(s, c, sid, sellQty, pause);
    assert Step(waiting, Replied(c, accepted))
        == Midway(s, c, sid, sellQty, pause, Saving(|s.orders|, accepted)).(orders := orders);
    SellEnds(s, c, sid, sellQty, pause, accepted, ok);
  }

  lemma LookupStops(s: State, c: int, sid: int, sellQty: Option<int>, pause: bool)
    requires MayEnter(s, c, sid, sellQty) && HasOpenRow(s, s.owners[sid])
    ensures Step(Step(s, Entered(c, sid, sellQty, pause)), LookedUp(c, false)) == s
  {
    var t := Midway(s, c, sid, sellQty, pause, Looking);
    assert HasOpenRow(t, s.owners[sid]);
    assert t.calls - {c} == s.calls && t.locked - {sid} == s.locked;
  }

  lemma GoneCallStays(s: State, c: int, accepted: bool, ok: bool)
    requires c !in s.calls
    ensures Step(s, LookedUp(c, false)) == Step(s, TrackingReady(c)) == Step(s, Sent(c, true)) == s
    ensures Step(s, Replied(c, accepted)) == Step(s, Written(c, ok)) == Step(s, Flushed(c)) == s
  {
  }

  /** A sell that the guards or the lookup stop leaves everything as it was. */
  lemma StoppedSell(s: State, c: int, sid: int, sellQty: Option<int>, pause: bool, accepted: bool, ok: bool)
    requires c !in s.calls && sid !in s.locked
    requires MayEnter(s, c, sid, sellQty) ==> HasOpenRow(s, s.owners[sid])
    ensures Run(s, SellOnce(c, sid, sellQty, pause, accepted, ok)) == s
  {
    SellOnceSteps(s, c, sid, sellQty, pause, accepted, ok);
    GoneCallStays(s, c, accepted, ok);
    if MayEnter(s, c, sid, sellQty) {
      LookupStops(s, c, sid, sellQty, pause);
    }
  }

  /** Two sells of a session, one after the other: both are live exactly when the
      first had no good reply, or was taken, not written down and does not pause its
      session, as the first part of a scaled-out position. A row that was written
      stops the second at its lookup, a raised flag at its entry. */
  lemma SecondSellGoesThroughIff(s: State, sid: int, sellQty: Option<int>, pause: bool, accepted: bool, ok: bool)
    requires Idle(s) && MaySell(s, 100, sid, sellQty)
    ensures var t := Run(s, SellOnce(100, sid, sellQty, pause, accepted, ok)
                            + SellOnce(101, sid, None, false, true, true));
      && LiveOf(t, sid, 0)
      && (LiveOf(t, sid, 1) <==> !accepted || (!ok && !Pauses(s, sid, sellQty, pause)))
  {
    var mid := Sold(s, sid, sellQty, pause, accepted, ok);
    LoneSell(s, 100, sid, sellQty, pause, accepted, ok);
    RunConcat(s, SellOnce(100, sid, sellQty, pause, accepted, ok), SellOnce(101, sid, None, false, true, true));
    if accepted && ok {
      assert mid.rows[0].open;
      StoppedSell(mid, 101, sid, None, false, true, true);
    } else if accepted && Pauses(s, sid, sellQty, pause) {
      StoppedSell(mid, 101, sid, None, false, true, true);
    } else {
      assert !HasOpenRow(mid, mid.owners[sid]);
      LoneSell(mid, 101, sid, None, false, true, true);
    }
  }

  /** A whole sell that was taken and not written down blocks its session until it
      is armed again for want of an open row; then a second sell goes through. */
  lemma RearmedSessionSellsAgain(s: State, sid: int)
    requires Idle(s) && MaySell(s, 100, sid, None)
    ensures var first := SellOnce(100, sid, None, false, true, false);
      var t := Run(s, first + [PendingChanged(sid, false)] + SellOnce(101, sid, None, false, true, true));
      && sid in Run(s, first).pending
      && LiveOf(t, sid, 0) && LiveOf(t, sid, 1) && t.orders[0].qty == t.orders[1].qty == s.holding[sid]
  {
    var first := SellOnce(100, sid, None, false, true, false);
    LoneSell(s, 100, sid, None, false, true, false);
    RunThen(s, first, PendingChanged(sid, false));
    var armed := Run(s, first + [PendingChanged(sid, false)]);
    assert !HasOpenRow(armed, armed.owners[sid]);
    LoneSell(armed, 101, sid, None, false, true, true);
    RunConcat(s, first + [PendingChanged(sid, false)], SellOnce(101, sid, None, false, true, true));
  }
}
