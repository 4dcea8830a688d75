/** Whether the shares of an automatic sell are still held when it goes out. Its
    quantity is fixed before the first await; what fills afterwards is not seen. */
module SellCover {
  import opened Numbers
  import opened SellLock
  import L = OrderLedger

  // ----- what has filled since a list of rows was taken down -----

  predicate Counts(was: seq<Row>, rows: seq<Row>, i: nat, sid: int, side: L.Side)
    requires i < |rows|
  {
    rows[i].session == Some(sid) && rows[i].side == side && (i >= |was| || was[i].open)
  }

  function ExecutedThen(was: seq<Row>, i: nat): int { if i < |was| then was[i].executed else 0 }

  /** Shares that rows of the session filled since `was`: only rows that were open
      then, or were placed since, are counted. */
  function FilledSince(was: seq<Row>, rows: seq<Row>, sid: int, side: L.Side, n: nat): int
    requires n <= |rows|
  {
    if n == 0 then 0
    else FilledSince(was, rows, sid, side, n - 1)
         + (if Counts(was, rows, n - 1, sid, side) then rows[n - 1].executed - ExecutedThen(was, n - 1) else 0)
  }

  function SoldSince(was: seq<Row>, rows: seq<Row>, sid: int): int { FilledSince(was, rows, sid, L.Sell, |rows|) }

  function BoughtSince(was: seq<Row>, rows: seq<Row>, sid: int): int { FilledSince(was, rows, sid, L.Buy, |rows|) }

  /** The later list continues the earlier one: rows keep their terms, lose no
      execution and, once closed, stay as they are. */
  ghost predicate Continues(was: seq<Row>, rows: seq<Row>) {
    && |was| <= |rows|
    && (forall i :: 0 <= i < |was| ==> was[i].executed <= rows[i].executed && (rows[i].open ==> was[i].open))
    && (forall i :: |was| <= i < |rows| ==> 0 <= rows[i].executed)
  }

  lemma {:induction false} NothingSince(was: seq<Row>, sid: int, side: L.Side, n: nat)
    requires n <= |was|
    ensures FilledSince(was, was, sid, side, n) == 0
  {
    if n > 0 {
      NothingSince(was, sid, side, n - 1);
    }
  }

  lemma {:induction false} FilledIsNonNegative(was: seq<Row>, rows: seq<Row>, sid: int, side: L.Side, n: nat)
    requires n <= |rows| && Continues(was, rows)
    ensures 0 <= FilledSince(was, rows, sid, side, n)
  {
    if n > 0 {
      FilledIsNonNegative(was, rows, sid, side, n - 1);
    }
  }

  /** No share was filled exactly when no counted row has more than it had. */
  lemma {:induction false} NoneFilledIff(was: seq<Row>, rows: seq<Row>, sid: int, side: L.Side, n: nat)
    requires n <= |rows| && Continues(was, rows)
    ensures FilledSince(was, rows, sid, side, n) == 0 <==>
      forall i :: 0 <= i < n && Counts(was, rows, i, sid, side) ==> rows[i].executed == ExecutedThen(was, i)
  {
    if n > 0 {
      NoneFilledIff(was, rows, sid, side, n - 1);
      FilledIsNonNegative(was, rows, sid, side, n - 1);
    }
  }

  lemma {:induction false} FilledOnPrefix(was: seq<Row>, rows: seq<Row>, more: seq<Row>, sid: int, side: L.Side, n: nat)
    requires n <= |rows| <= |more| && forall i :: 0 <= i < n ==> more[i] == rows[i]
    ensures FilledSince(was, more, sid, side, n) == FilledSince(was, rows, sid, side, n)
  {
    if n > 0 {
      FilledOnPrefix(was, rows, more, sid, side, n - 1);
    }
  }

  /** One row changes its executions: the sum moves by as much, if it counts. */
  lemma {:induction false} FilledMoves(was: seq<Row>, rows: seq<Row>, i: nat, r: Row, sid: int, side: L.Side, n: nat)
    requires i < |rows| && n <= |rows| && r.session == rows[i].session && r.side == rows[i].side
    ensures FilledSince(was, rows[i := r], sid, side, n) == FilledSince(was, rows, sid, side, n)
            + (if i < n && Counts(was, rows, i, sid, side) then r.executed - rows[i].executed else 0)
  {
    if n > 0 {
      FilledMoves(was, rows, i, r, sid, side, n - 1);
    }
  }

  // ----- the holding of a locked session -----

  ghost predicate SoundRows(s: State) {
    && (forall i :: 0 <= i < |s.rows| ==> 0 <= s.rows[i].executed <= s.rows[i].quantity)
    && (forall sid :: sid in s.holding ==> 0 <= s.holding[sid])
    && (forall c :: c in s.calls ==> 0 < s.calls[c].qty)
  }

  /** By how many shares the step fills more of a sell of the session than the
      session holds; such shares leave nothing. */
  function ShortBy(s: State, e: Event, sid: int): nat {
    if e.Filled? && e.row < |s.rows| && s.rows[e.row].open && sid in s.holding
       && s.rows[e.row].session == Some(sid) && s.rows[e.row].side == L.Sell
    then MaxInt(0, FillRow(s.rows[e.row], e.qty).executed - s.rows[e.row].executed - s.holding[sid])
    else 0
  }

  /** Holding, shares sold and shares bought since an earlier moment. */
  datatype Tally = Tally(held: int, sold: int, bought: int)

  function TallyOf(was: seq<Row>, s: State, sid: int): Tally
    requires sid in s.holding
  {
    Tally(s.holding[sid], SoldSince(was, s.rows, sid), BoughtSince(was, s.rows, sid))
  }

  /** What a step does to the tally of a locked session: nothing, or a fill. */
  predicate Moves(a: Tally, b: Tally, short: nat) {
    || (b == a && short == 0)
    || (a.bought <= b.bought && b == Tally(a.held + (b.bought - a.bought), a.sold, b.bought) && short == 0)
    || (a.sold <= b.sold && b == Tally(a.held - MinInt(b.sold - a.sold, a.held), b.sold, a.bought)
        && short == MaxInt(0, b.sold - a.sold - a.held))
  }

  lemma FillKeepsRows(was: seq<Row>, s: State, i: nat, qty: nat)
    requires SoundRows(s) && Continues(was, s.rows)
    ensures SoundRows(Fill(s, i, qty)) && Continues(was, Fill(s, i, qty).rows)
  {
  }

  lemma WriteKeepsRows(was: seq<Row>, s: State, c: int, ok: bool)
    requires SoundRows(s) && Continues(was, s.rows)
    ensures SoundRows(Step(s, Written(c, ok))) && Continues(was, Step(s, Written(c, ok)).rows)
  {
    if IsSaving(s, c) {
      assert 0 < s.calls[c].qty;
    }
  }

  lemma StepKeepsRows(was: seq<Row>, s: State, e: Event)
    requires SoundRows(s) && Continues(was, s.rows)
    ensures SoundRows(Step(s, e)) && Continues(was, Step(s, e).rows)
  {
    match e
    case Filled(i, qty) => FillKeepsRows(was, s, i, qty);
    case Written(c, ok) => WriteKeepsRows(was, s, c, ok);
    case _ =>
  }

  lemma FillMovesTally(was: seq<Row>, s: State, i: nat, qty: nat, sid: int)
    requires SoundRows(s) && Continues(was, s.rows) && sid in s.holding
    ensures sid in Fill(s, i, qty).holding
    ensures Moves(TallyOf(was, s, sid), TallyOf(was, Fill(s, i, qty), sid), ShortBy(s, Filled(i, qty), sid))
  {
    var t := Fill(s, i, qty);
    if i < |s.rows| && s.rows[i].open {
      var r, n := s.rows[i], |s.rows|;
      var r' := FillRow(r, qty);
      var q: nat := r'.executed - r.executed;
      FilledMoves(was, s.rows, i, r', sid, L.Sell, n);
      FilledMoves(was, s.rows, i, r', sid, L.Buy, n);
      assert r.session == Some(sid) ==> t.holding[sid] == FillHolding(s.holding[sid], r, qty);
    }
  }

  lemma RowStepTally(was: seq<Row>, s: State, e: Event, sid: int)
    requires SoundRows(s) && Continues(was, s.rows) && sid in s.holding && (e.OtherOrder? || e.RowClosed? || e.Written?)
    ensures sid in Step(s, e).holding && TallyOf(was, Step(s, e), sid) == TallyOf(was, s, sid)
  {
    var t := Step(s, e);
    if e.RowClosed? {
      if e.row < |s.rows| {
        FilledMoves(was, s.rows, e.row, t.rows[e.row], sid, L.Sell, |s.rows|);
        FilledMoves(was, s.rows, e.row, t.rows[e.row], sid, L.Buy, |s.rows|);
      }
    } else {
      FilledOnPrefix(was, s.rows, t.rows, sid, L.Sell, |s.rows|);
      FilledOnPrefix(was, s.rows, t.rows, sid, L.Buy, |s.rows|);
    }
  }

  lemma StepMovesTally(was: seq<Row>, s: State, e: Event, sid: int)
    requires SoundRows(s) && Continues(was, s.rows) && sid in s.holding && sid in s.locked
    ensures sid in Step(s, e).holding
    ensures Moves(TallyOf(was, s, sid), TallyOf(was, Step(s, e), sid), ShortBy(s, e, sid))
  {
    match e
    case Filled(i, qty) => FillMovesTally(was, s, i, qty, sid);
    case OtherOrder(_, _, _, _, _) => RowStepTally(was, s, e, sid);
    case RowClosed(_) => RowStepTally(was, s, e, sid);
    case Written(_, _) => RowStepTally(was, s, e, sid);
    case _ =>
  }

  // ----- a call that stays -----

  /** The call is there after every prefix of the run. */
  ghost predicate Stays(s: State, es: seq<Event>, c: int) {
    forall n :: 0 <= n <= |es| ==> c in Run(s, es[..n]).calls
  }

  /** All shares by which fills of the run were larger than the holding. */
  function Shortfall(s: State, es: seq<Event>, sid: int): nat {
    if |es| == 0 then 0
    else Shortfall(s, es[..|es| - 1], sid) + ShortBy(Run(s, es[..|es| - 1]), es[|es| - 1], sid)
  }

  /** How the holding moved: as was sold and bought, except for shares that were
      not there to leave; without buys it just stops at zero. */
  ghost predicate Moved(held: int, t: Tally, short: nat) {
    && 0 <= t.held && 0 <= t.sold && 0 <= t.bought
    && t.held == held - t.sold + t.bought + short
    && (t.bought == 0 ==> t.held == MaxInt(0, held - t.sold))
  }

  lemma MovedOn(held: int, a: Tally, b: Tally, before: nat, now: nat)
    requires Moved(held, a, before) && Moves(a, b, now)
    ensures Moved(held, b, before + now)
  {
  }

  lemma StayingCallIsSame(s: State, e: Event, c: int)
    requires c in s.calls && c in Step(s, e).calls
    ensures Step(s, e).calls[c].sid == s.calls[c].sid && Step(s, e).calls[c].qty == s.calls[c].qty
  {
  }

  /** All along, for a call that stays. */
  ghost predicate Tracked(s: State, t: State, c: int, short: nat)
    requires c in s.calls && s.calls[c].sid in s.holding
  {
    && c in t.calls && t.calls[c].sid == s.calls[c].sid && t.calls[c].qty == s.calls[c].qty
    && s.calls[c].sid in t.holding && SoundRows(t) && Continues(s.rows, t.rows)
    && Moved(s.holding[s.calls[c].sid], TallyOf(s.rows, t, s.calls[c].sid), short)
  }

  lemma StartIsTracked(s: State, c: int)
    requires SoundRows(s) && c in s.calls && s.calls[c].sid in s.holding
    ensures Tracked(s, s, c, 0)
  {
    NothingSince(s.rows, s.calls[c].sid, L.Sell, |s.rows|);
    NothingSince(s.rows, s.calls[c].sid, L.Buy, |s.rows|);
  }

  lemma StepIsTracked(s: State, t: State, e: Event, c: int, short: nat)
    requires c in s.calls && s.calls[c].sid in s.holding && Tracked(s, t, c, short)
    requires Safe(t) && c in Step(t, e).calls
    ensures Tracked(s, Step(t, e), c, short + ShortBy(t, e, s.calls[c].sid))
  {
    var sid := s.calls[c].sid;
    StayingCallIsSame(t, e, c);
    StepKeepsRows(s.rows, t, e);
    StepMovesTally(s.rows, t, e, sid);
    MovedOn(s.holding[sid], TallyOf(s.rows, t, sid), TallyOf(s.rows, Step(t, e), sid), short, ShortBy(t, e, sid));
  }

  lemma {:induction false} RunIsTracked(s: State, es: seq<Event>, c: int)
    requires Safe(s) && SoundRows(s) && c in s.calls && s.calls[c].sid in s.holding && Stays(s, es, c)
    ensures Tracked(s, Run(s, es), c, Shortfall(s, es, s.calls[c].sid))
  {
    if |es| == 0 {
      StartIsTracked(s, c);
    } else {
      var n := |es| - 1;
      var init := es[..n];
      assert forall m :: 0 <= m <= n ==> init[..m] == es[..m];
      RunIsTracked(s, init, c);
      RunKeepsSafe(s, init);
      assert es[..|es|] == es;
      assert c in Run(s, es[..|es|]).calls;
      StepIsTracked(s, Run(s, init), es[n], c, Shortfall(s, init, s.calls[c].sid));
    }
  }

  // ----- the main results -----

  /** The session still holds what the call is about to sell. */
  predicate Covered(t: State, c: int) {
    c in t.calls && t.calls[c].sid in t.holding && t.calls[c].qty <= t.holding[t.calls[c].sid]
  }

  /** The sell just entered: its quantity was taken from the holding. */
  predicate JustEntered(s: State, c: int) {
    && c in s.calls && s.calls[c].sid in s.holding
    && 0 < s.calls[c].qty <= s.holding[s.calls[c].sid]
  }

  lemma EnteringTakesFromHolding(s: State, c: int, sid: int, sellQty: Option<int>, pauseAfterSell: bool)
    requires Safe(s) && SoundRows(s) && Enter(s, c, sid, sellQty, pauseAfterSell) != s
    ensures var t := Enter(s, c, sid, sellQty, pauseAfterSell);
      && Safe(t) && SoundRows(t) && JustEntered(t, c) && t.calls[c].sid == sid
      && t.rows == s.rows && t.holding == s.holding
      && (sellQty.None? ==> t.calls[c].qty == s.holding[sid])
  {
    EnterKeepsSafe(s, c, sid, sellQty, pauseAfterSell);
  }

  /** The shares the call leaves in the holding. */
  function Slack(s: State, c: int): int
    requires c in s.calls && s.calls[c].sid in s.holding
  {
    s.holding[s.calls[c].sid] - s.calls[c].qty
  }

  /** At every moment until the call ends, its lookup and its request among them:
      the shares are still held exactly when rows that were open as it entered, or
      were placed since, sold on balance no more than the call leaves. Shares of
      fills beyond the holding do not count, and cannot matter without buys. */
  lemma SellIsCoveredIff(s: State, es: seq<Event>, c: int)
    requires Safe(s) && SoundRows(s) && JustEntered(s, c) && Stays(s, es, c)
    ensures var t, sid := Run(s, es), s.calls[c].sid;
      var sold, bought := SoldSince(s.rows, t.rows, sid), BoughtSince(s.rows, t.rows, sid);
      && (Covered(t, c) <==> sold - bought - Shortfall(s, es, sid) <= Slack(s, c))
      && (bought == 0 ==> (Covered(t, c) <==> sold <= Slack(s, c)))
  {
    RunIsTracked(s, es, c);
  }

  /** No sell row of the session that was open then, or was placed since, has got
      a share. */
  ghost predicate NothingSold(was: seq<Row>, rows: seq<Row>, sid: int) {
    forall i :: 0 <= i < |rows| && Counts(was, rows, i, sid, L.Sell) ==> rows[i].executed == ExecutedThen(was, i)
  }

  /** A sell of the whole holding, while nothing is bought: its shares are still
      held exactly when no sell row of the session that was open as it entered, or
      was placed since, has filled. The lookup in between cannot tell: a row that
      filled is closed. */
  lemma WholeSellIsCoveredIff(s: State, es: seq<Event>, c: int)
    requires Safe(s) && SoundRows(s) && JustEntered(s, c) && Stays(s, es, c) && Slack(s, c) == 0
    requires BoughtSince(s.rows, Run(s, es).rows, s.calls[c].sid) == 0
    ensures Covered(Run(s, es), c) <==> NothingSold(s.rows, Run(s, es).rows, s.calls[c].sid)
  {
    var t, sid := Run(s, es), s.calls[c].sid;
    RunIsTracked(s, es, c);
    NoneFilledIff(s.rows, t.rows, sid, L.Sell, |t.rows|);
  }

  /** With no row of the session open as the call enters, and none placed since,
      nothing can happen to its shares. */
  lemma {:induction false} UndisturbedSellIsCovered(s: State, es: seq<Event>, c: int)
    requires Safe(s) && SoundRows(s) && JustEntered(s, c) && Stays(s, es, c)
    requires forall i, side :: 0 <= i < |Run(s, es).rows| ==> !Counts(s.rows, Run(s, es).rows, i, s.calls[c].sid, side)
    ensures Covered(Run(s, es), c)
  {
    var t, sid := Run(s, es), s.calls[c].sid;
    RunIsTracked(s, es, c);
    NoneFilledIff(s.rows, t.rows, sid, L.Sell, |t.rows|);
    NoneFilledIff(s.rows, t.rows, sid, L.Buy, |t.rows|);
  }

  // ----- a run that shows the limit -----

  /** A sell by hand that is open as an automatic sell enters, fills and closes
      before its lookup: the lookup finds nothing, and the sell goes on to offer
      shares that are no longer held. */
  lemma SellByHandInBetweenOversells(s: State, c: int, sid: int)
    requires Idle(s) && c !in s.calls && Known(s, sid) && s.holding[sid] > 0 && sid !in s.pending
    ensures var o := s.owners[sid];
      var es := [OtherOrder(o.user, o.stock, Some(sid), L.Sell, s.holding[sid])] + [Entered(c, sid, None, false)]
                + [Filled(0, s.holding[sid])] + [LookedUp(c, false)];
      var t := Run(s, es);
      && c in t.calls && t.calls[c].phase == Tracking
      && sid in t.holding && t.calls[c].qty == s.holding[sid] > t.holding[sid] == 0
  {
    var o, held := s.owners[sid], s.holding[sid];
    var e1, e2 := OtherOrder(o.user, o.stock, Some(sid), L.Sell, held), Entered(c, sid, None, false);
    var e3, e4 := Filled(0, held), LookedUp(c, false);
    RunOne(s, e1);
    RunThen(s, [e1], e2);
    RunThen(s, [e1] + [e2], e3);
    RunThen(s, [e1] + [e2] + [e3], e4);
    var t := Run(s, [e1] + [e2] + [e3]);
    assert t.rows == [Row(o.user, o.stock, Some(sid), L.Sell, held, held, None, false)];
    assert !HasOpenRow(t, o);
  }
}
