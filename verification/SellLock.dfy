/** Automatic sells split at their awaits. Any number of callers run at once; a
    per-session lock and the open-order check keep them apart. */
module SellLock {
  import opened Numbers
  import L = OrderLedger

  /** Where a call of the sell routine waits. Looking: for the open-order lookup.
      Tracking: for the notification channel. Preparing: for the headers of the
      request. Waiting: for the broker's reply. Saving: for the history write.
      Flushing: for its last write before the release. */
  datatype Phase =
    | Looking | Tracking | Preparing | Waiting(order: nat) | Saving(order: nat, accepted: bool) | Flushing

  datatype Call = Call(sid: int, qty: int, pauseAfterSell: bool, phase: Phase)

  /** A row of the history. `session` is the session it is for, `order` the
      request it was written for when that was an automatic sell. */
  datatype Row = Row(
    user: int, stock: string, session: Option<int>, side: L.Side, quantity: int, executed: int,
    order: Option<nat>, open: bool)

  /** An automatic sell that was sent to the broker. It has ended once the broker
      can no longer fill it: refused, never arrived, filled or cancelled. */
  datatype Order = Order(sid: int, qty: int, ended: bool)

  datatype Owner = Owner(user: int, stock: string)

  datatype State = State(
    owners: map<int, Owner>, holding: map<int, int>, pending: set<int>,
    locked: set<int>, calls: map<int, Call>, rows: seq<Row>, orders: seq<Order>)

  datatype Event =
    | Entered(call: int, sid: int, sellQty: Option<int>, pauseAfterSell: bool)
    | LookedUp(call: int, fails: bool)
    | TrackingReady(call: int)
    | Sent(call: int, ok: bool)
    | Replied(call: int, accepted: bool)
    | Written(call: int, ok: bool)
    | Flushed(call: int)
    | Ended(order: nat)
    | OtherOrder(user: int, stock: string, session: Option<int>, side: L.Side, qty: nat)
    | Filled(row: nat, qty: nat)
    | RowClosed(row: nat)
    | Synced(sid: int, qty: nat)
    | PendingChanged(sid: int, pending: bool)

  predicate HasOpenRow(s: State, o: Owner) {
    exists i :: 0 <= i < |s.rows| && s.rows[i].open && s.rows[i].user == o.user && s.rows[i].stock == o.stock
  }

  predicate Known(s: State, sid: int) { sid in s.owners && sid in s.holding }

  /** The part of a call before its first await: guards, quantity, lock. */
  function Enter(s: State, c: int, sid: int, sellQty: Option<int>, pauseAfterSell: bool): State {
    if c in s.calls || !Known(s, sid) then s
    else if s.holding[sid] <= 0 || sid in s.pending || sid in s.locked then s
    else
      var qty := MinInt(if sellQty.Some? then sellQty.value else s.holding[sid], s.holding[sid]);
      if qty <= 0 then s
      else s.(locked := s.locked + {sid},
              calls := s.calls[c := Call(sid, qty, qty >= s.holding[sid] || pauseAfterSell, Looking)])
  }

  function Release(s: State, c: int): State
    requires c in s.calls
  {
    s.(locked := s.locked - {s.calls[c].sid}, calls := s.calls - {c})
  }

  function Advance(s: State, c: int, phase: Phase): State
    requires c in s.calls
  {
    s.(calls := s.calls[c := s.calls[c].(phase := phase)])
  }

  /** Sends the request; a failure before that ends the call. */
  function Send(s: State, c: int, ok: bool): State
    requires c in s.calls
  {
    if !ok then Release(s, c)
    else
      var call := s.calls[c];
      Advance(s.(orders := s.orders + [Order(call.sid, call.qty, false)]), c, Waiting(|s.orders|))
  }

  function SellRow(s: State, c: int, order: nat, accepted: bool): Row
    requires c in s.calls && s.calls[c].sid in s.owners
  {
    var call, o := s.calls[c], s.owners[s.calls[c].sid];
    Row(o.user, o.stock, Some(call.sid), L.Sell, call.qty, 0, Some(order), accepted)
  }

  /** Writes the row: an accepted order is open, any other reply, or none at all,
      leaves a failed row. A write that fails leaves no row and is otherwise not
      noticed: the call goes on by the reply. */
  function Write(s: State, c: int, order: nat, accepted: bool, ok: bool): State
    requires c in s.calls && s.calls[c].sid in s.owners
  {
    var call := s.calls[c];
    var t := if ok then s.(rows := s.rows + [SellRow(s, c, order, accepted)]) else s;
    if accepted
    then Advance(t.(pending := if call.pauseAfterSell then t.pending + {call.sid} else t.pending), c, Flushing)
    else Release(t, c)
  }

  predicate At(s: State, c: int, phase: Phase) {
    c in s.calls && s.calls[c].phase == phase && s.calls[c].sid in s.owners
  }

  predicate IsSaving(s: State, c: int) { c in s.calls && s.calls[c].phase.Saving? && s.calls[c].sid in s.owners }

  /** What one execution of `qty` shares does to an open row. */
  function FillRow(r: Row, qty: nat): Row {
    var executed := MinInt(r.quantity, r.executed + qty);
    r.(executed := MaxInt(r.executed, executed), open := executed < r.quantity)
  }

  /** What it does to the holding: a sell takes at most the shares that are held. */
  function FillHolding(held: int, r: Row, qty: nat): int {
    var applied := FillRow(r, qty).executed - r.executed;
    if r.side == L.Buy then held + applied else held - MinInt(applied, held)
  }

  /** A recorded execution moves its row and the holding of its session. */
  function Fill(s: State, i: nat, qty: nat): State {
    if i >= |s.rows| || !s.rows[i].open then s
    else
      var r := s.rows[i];
      var t := s.(rows := s.rows[i := FillRow(r, qty)]);
      if r.session.Some? && r.session.value in s.holding
      then t.(holding := s.holding[r.session.value := FillHolding(s.holding[r.session.value], r, qty)])
      else t
  }

  function Step(s: State, e: Event): State {
    match e
    case Entered(c, sid, sellQty, pauseAfterSell) => Enter(s, c, sid, sellQty, pauseAfterSell)
    case LookedUp(c, fails) =>
      if !At(s, c, Looking) then s
      else if fails || HasOpenRow(s, s.owners[s.calls[c].sid]) then Release(s, c)
      else Advance(s, c, Tracking)
    case TrackingReady(c) => if !At(s, c, Tracking) then s else Advance(s, c, Preparing)
    case Sent(c, ok) => if !At(s, c, Preparing) then s else Send(s, c, ok)
    case Replied(c, accepted) =>
      if c in s.calls && s.calls[c].phase.Waiting? then Advance(s, c, Saving(s.calls[c].phase.order, accepted)) else s
    case Written(c, ok) =>
      if IsSaving(s, c) then Write(s, c, s.calls[c].phase.order, s.calls[c].phase.accepted, ok) else s
    case Flushed(c) => if !At(s, c, Flushing) then s else Release(s, c)
    case Ended(k) => if k >= |s.orders| then s else s.(orders := s.orders[k := s.orders[k].(ended := true)])
    case OtherOrder(user, stock, session, side, qty) =>
      s.(rows := s.rows + [Row(user, stock, session, side, qty, 0, None, true)])
    case Filled(i, qty) => Fill(s, i, qty)
    case RowClosed(i) => if i >= |s.rows| then s else s.(rows := s.rows[i := s.rows[i].(open := false)])
    case Synced(sid, qty) => if sid !in s.holding || sid in s.locked then s else s.(holding := s.holding[sid := qty])
    case PendingChanged(sid, p) => s.(pending := if p then s.pending + {sid} else s.pending - {sid})
  }

  function Run(s: State, es: seq<Event>): State {
    if |es| == 0 then s else Step(Run(s, es[..|es| - 1]), es[|es| - 1])
  }

  // ----- what every interleaving keeps -----

  /** One call per locked session, and one locked session per call. */
  ghost predicate OneCallPerSession(s: State) {
    && (forall c :: c in s.calls ==> s.calls[c].sid in s.locked && s.calls[c].sid in s.owners)
    && (forall sid :: sid in s.locked ==> exists c :: c in s.calls && s.calls[c].sid == sid)
    && (forall c, d :: c in s.calls && d in s.calls && c != d ==> s.calls[c].sid != s.calls[d].sid)
  }

  predicate OpenSellOf(r: Row, sid: int) { r.open && r.order.Some? && r.session == Some(sid) }

  ghost predicate NoOpenSell(rows: seq<Row>, sid: int) {
    forall i :: 0 <= i < |rows| ==> !OpenSellOf(rows[i], sid)
  }

  /** Past the lookup, before the row: the session has no open automatic sell. */
  predicate Committed(p: Phase) { p == Tracking || p == Preparing || p.Waiting? || p.Saving? }

  /** At most one automatic sell of a session is open, and its row is one that the
      lookup of the session finds. */
  ghost predicate OneOpenSell(s: State) {
    && (forall i, j, sid :: 0 <= i < j < |s.rows| && OpenSellOf(s.rows[i], sid) ==> !OpenSellOf(s.rows[j], sid))
    && (forall c :: c in s.calls && Committed(s.calls[c].phase) ==> NoOpenSell(s.rows, s.calls[c].sid))
    && (forall i, sid :: 0 <= i < |s.rows| && OpenSellOf(s.rows[i], sid) ==>
          sid in s.owners && s.owners[sid] == Owner(s.rows[i].user, s.rows[i].stock))
  }

  /** The request a call waits for, or writes down. */
  function Handled(call: Call): Option<nat> {
    if call.phase.Waiting? || call.phase.Saving? then Some(call.phase.order) else None
  }

  ghost predicate NoRowOf(rows: seq<Row>, k: nat) { forall i :: 0 <= i < |rows| ==> rows[i].order != Some(k) }

  /** A call handles a request of its own session, which has no row yet. */
  ghost predicate CallLinked(orders: seq<Order>, rows: seq<Row>, call: Call) {
    Handled(call).Some? ==>
      var k := Handled(call).value; k < |orders| && orders[k].sid == call.sid && NoRowOf(rows, k)
  }

  predicate RowLinked(orders: seq<Order>, r: Row) {
    r.order.Some? ==> r.order.value < |orders| && r.session == Some(orders[r.order.value].sid)
  }

  ghost predicate RowsLinked(orders: seq<Order>, rows: seq<Row>) {
    && (forall i :: 0 <= i < |rows| ==> RowLinked(orders, rows[i]))
    && (forall i, j :: 0 <= i < j < |rows| && rows[i].order.Some? ==> rows[i].order != rows[j].order)
  }

  /** A request belongs to the session of its call and of its row, and no request
      has both or two rows. */
  ghost predicate OrdersLinked(s: State) {
    RowsLinked(s.orders, s.rows) && forall c :: c in s.calls ==> CallLinked(s.orders, s.rows, s.calls[c])
  }

  ghost predicate Safe(s: State) { OneCallPerSession(s) && OneOpenSell(s) && OrdersLinked(s) }

  /** Every lock still belongs to a call. */
  lemma LocksAreCalls(s: State, t: State, c: int)
    requires OneCallPerSession(s)
    requires forall d :: d in s.calls && d != c ==> d in t.calls && t.calls[d].sid == s.calls[d].sid
    requires c in s.calls ==> if c in t.calls then t.calls[c].sid == s.calls[c].sid else s.calls[c].sid !in t.locked
    requires c !in s.calls && c in t.calls ==> t.locked == s.locked + {t.calls[c].sid}
    requires t.locked <= s.locked || (c !in s.calls && c in t.calls)
    ensures forall x :: x in t.locked ==> exists d :: d in t.calls && t.calls[d].sid == x
  {
    forall x | x in t.locked ensures exists d :: d in t.calls && t.calls[d].sid == x {
      if x in s.locked {
        var d :| d in s.calls && s.calls[d].sid == x;
        assert d in t.calls && t.calls[d].sid == x;
      } else {
        assert c in t.calls && t.calls[c].sid == x;
      }
    }
  }

  lemma EnterKeepsSafe(s: State, c: int, sid: int, sellQty: Option<int>, pauseAfterSell: bool)
    requires Safe(s)
    ensures Safe(Enter(s, c, sid, sellQty, pauseAfterSell))
  {
    var t := Enter(s, c, sid, sellQty, pauseAfterSell);
    if t != s {
      LocksAreCalls(s, t, c);
    }
  }

  lemma ReleaseKeepsSafe(s: State, c: int)
    requires Safe(s) && c in s.calls
    ensures Safe(Release(s, c))
  {
    LocksAreCalls(s, Release(s, c), c);
  }

  lemma AdvanceKeepsSafe(s: State, c: int, phase: Phase)
    requires Safe(s) && c in s.calls && (Committed(phase) ==> NoOpenSell(s.rows, s.calls[c].sid))
    requires phase.Waiting? || phase.Saving? ==> Handled(s.calls[c]) == Some(phase.order)
    ensures Safe(Advance(s, c, phase))
  {
    LocksAreCalls(s, Advance(s, c, phase), c);
  }

  /** A new request that its call waits for. */
  lemma SendKeepsLinks(s: State, c: int)
    requires Safe(s) && At(s, c, Preparing)
    ensures OrdersLinked(Send(s, c, true))
  {
    var t := Send(s, c, true);
    forall i | 0 <= i < |t.rows| ensures RowLinked(t.orders, t.rows[i]) {
      assert RowLinked(s.orders, s.rows[i]);
    }
    forall d | d in t.calls ensures CallLinked(t.orders, t.rows, t.calls[d]) {
      assert CallLinked(s.orders, s.rows, s.calls[d]);
    }
  }

  lemma SendKeepsSafe(s: State, c: int, ok: bool)
    requires Safe(s) && At(s, c, Preparing)
    ensures Safe(Send(s, c, ok))
  {
    if !ok {
      ReleaseKeepsSafe(s, c);
    } else {
      LocksAreCalls(s, Send(s, c, ok), c);
      SendKeepsLinks(s, c);
    }
  }

  /** Writing the row of a request: its call no longer handles it. */
  lemma AddRowKeepsSafe(s: State, c: int, accepted: bool)
    requires Safe(s) && IsSaving(s, c)
    ensures var row := SellRow(s, c, s.calls[c].phase.order, accepted);
      Safe(Advance(s.(rows := s.rows + [row]), c, Flushing))
  {
    var row := SellRow(s, c, s.calls[c].phase.order, accepted);
    var t := Advance(s.(rows := s.rows + [row]), c, Flushing);
    var sid := s.calls[c].sid;
    LocksAreCalls(s, t, c);
    assert NoOpenSell(s.rows, sid);
    forall d | d in t.calls && Committed(t.calls[d].phase) ensures NoOpenSell(t.rows, t.calls[d].sid) {
      assert d != c && NoOpenSell(s.rows, s.calls[d].sid) && s.calls[d].sid != sid;
    }
    AddRowKeepsLinks(s, c, accepted);
  }

  lemma AddRowKeepsLinks(s: State, c: int, accepted: bool)
    requires Safe(s) && IsSaving(s, c)
    ensures var row := SellRow(s, c, s.calls[c].phase.order, accepted);
      OrdersLinked(Advance(s.(rows := s.rows + [row]), c, Flushing))
  {
    var k := s.calls[c].phase.order;
    var rows := s.rows + [SellRow(s, c, k, accepted)];
    assert CallLinked(s.orders, s.rows, s.calls[c]) && NoRowOf(s.rows, k);
    forall d | d in s.calls && d != c ensures CallLinked(s.orders, rows, s.calls[d]) {
      assert CallLinked(s.orders, s.rows, s.calls[d]);
      assert s.calls[d].sid != s.calls[c].sid;
    }
  }

  lemma WriteKeepsSafe(s: State, c: int, ok: bool)
    requires Safe(s) && IsSaving(s, c)
    ensures Safe(Step(s, Written(c, ok)))
  {
    var k, accepted := s.calls[c].phase.order, s.calls[c].phase.accepted;
    var t := if ok then s.(rows := s.rows + [SellRow(s, c, k, accepted)]) else s;
    var u := Advance(t, c, Flushing);
    if ok {
      AddRowKeepsSafe(s, c, accepted);
    } else {
      AdvanceKeepsSafe(s, c, Flushing);
    }
    if accepted {
      assert Step(s, Written(c, ok)) == u.(pending := Step(s, Written(c, ok)).pending);
    } else {
      ReleaseKeepsSafe(u, c);
      assert Release(t, c).calls == Release(u, c).calls;
    }
  }

  /** Rows that are added for other orders, or filled, or closed. */
  ghost predicate RowsMove(rows: seq<Row>, more: seq<Row>) {
    && |rows| <= |more|
    && (forall i :: 0 <= i < |rows| ==>
          more[i] == rows[i].(executed := more[i].executed, open := more[i].open) && (more[i].open ==> rows[i].open))
    && (forall i :: |rows| <= i < |more| ==> more[i].order == None)
  }

  lemma RowsKeepSafe(s: State, t: State)
    requires Safe(s) && t == s.(rows := t.rows, holding := t.holding) && RowsMove(s.rows, t.rows)
    ensures Safe(t)
  {
    forall i, sid | 0 <= i < |t.rows| && OpenSellOf(t.rows[i], sid) ensures i < |s.rows| && OpenSellOf(s.rows[i], sid) {
    }
    forall c | c in t.calls && Committed(t.calls[c].phase) ensures NoOpenSell(t.rows, t.calls[c].sid) {
      assert NoOpenSell(s.rows, s.calls[c].sid);
    }
    assert RowsLinked(t.orders, t.rows) by {
      forall i | 0 <= i < |t.rows| ensures RowLinked(t.orders, t.rows[i]) {
        if i < |s.rows| {
          assert RowLinked(s.orders, s.rows[i]);
        }
      }
    }
    forall c | c in t.calls ensures CallLinked(t.orders, t.rows, t.calls[c]) {
      assert CallLinked(s.orders, s.rows, s.calls[c]);
    }
  }

  lemma EndedKeepsSafe(s: State, k: nat)
    requires Safe(s) && k < |s.orders|
    ensures Safe(s.(orders := s.orders[k := s.orders[k].(ended := true)]))
  {
    var t := s.(orders := s.orders[k := s.orders[k].(ended := true)]);
    forall i | 0 <= i < |t.rows| ensures RowLinked(t.orders, t.rows[i]) {
      assert RowLinked(s.orders, s.rows[i]);
    }
    forall c | c in t.calls ensures CallLinked(t.orders, t.rows, t.calls[c]) {
      assert CallLinked(s.orders, s.rows, s.calls[c]);
    }
  }

  lemma CallStepKeepsSafe(s: State, e: Event)
    requires Safe(s) && (e.LookedUp? || e.TrackingReady? || e.Replied? || e.Flushed?)
    ensures Safe(Step(s, e))
  {
    var c := e.call;
    if c in s.calls && s.calls[c].sid in s.owners {
      if Step(s, e) == Release(s, c) {
        ReleaseKeepsSafe(s, c);
      } else if s.calls[c].phase == Looking && !HasOpenRow(s, s.owners[s.calls[c].sid]) {
        AdvanceKeepsSafe(s, c, Tracking);
      } else if s.calls[c].phase == Tracking {
        AdvanceKeepsSafe(s, c, Preparing);
      } else if s.calls[c].phase.Waiting? && e.Replied? {
        AdvanceKeepsSafe(s, c, Saving(s.calls[c].phase.order, e.accepted));
      }
    }
  }

  lemma RowStepKeepsSafe(s: State, e: Event)
    requires Safe(s) && (e.OtherOrder? || e.Filled? || e.RowClosed?)
    ensures Safe(Step(s, e))
  {
    RowsKeepSafe(s, Step(s, e));
  }

  lemma StepKeepsSafe(s: State, e: Event)
    requires Safe(s)
    ensures Safe(Step(s, e))
  {
    match e
    case Entered(c, sid, sellQty, pauseAfterSell) => EnterKeepsSafe(s, c, sid, sellQty, pauseAfterSell);
    case LookedUp(_, _) => CallStepKeepsSafe(s, e);
    case TrackingReady(_) => CallStepKeepsSafe(s, e);
    case Replied(_, _) => CallStepKeepsSafe(s, e);
    case Flushed(_) => CallStepKeepsSafe(s, e);
    case Sent(c, ok) =>
      if At(s, c, Preparing) {
        SendKeepsSafe(s, c, ok);
      }
    case Written(c, ok) =>
      if IsSaving(s, c) {
        WriteKeepsSafe(s, c, ok);
      }
    case Ended(k) =>
      if k < |s.orders| {
        EndedKeepsSafe(s, k);
      }
    case OtherOrder(_, _, _, _, _) => RowStepKeepsSafe(s, e);
    case Filled(_, _) => RowStepKeepsSafe(s, e);
    case RowClosed(_) => RowStepKeepsSafe(s, e);
    case _ =>
  }

  lemma {:induction false} RunKeepsSafe(s: State, es: seq<Event>)
    requires Safe(s)
    ensures Safe(Run(s, es))
  {
    if |es| > 0 {
      RunKeepsSafe(s, es[..|es| - 1]);
      StepKeepsSafe(Run(s, es[..|es| - 1]), es[|es| - 1]);
    }
  }

  /** Nothing has happened yet. */
  predicate Idle(s: State) { s.locked == {} && s.calls == map[] && s.rows == [] && s.orders == [] }

  /** However many callers interleave, at most one call per session is between
      lock and release, and every lock belongs to such a call. */
  lemma OneCallPerLock(s: State, es: seq<Event>)
    requires Idle(s)
    ensures OneCallPerSession(Run(s, es))
  {
    RunKeepsSafe(s, es);
  }

  // ----- runs in parts -----

  lemma {:induction false} RunConcat(s: State, a: seq<Event>, b: seq<Event>)
    ensures Run(s, a + b) == Run(Run(s, a), b)
  {
    if |b| == 0 {
      assert a + b == a;
    } else {
      assert (a + b)[..|a + b| - 1] == a + b[..|b| - 1];
      RunConcat(s, a, b[..|b| - 1]);
    }
  }

  lemma RunOne(s: State, e: Event)
    ensures Run(s, [e]) == Step(s, e)
  {
    assert [e][..0] == [];
    assert Run(s, []) == s;
  }

  lemma RunThen(s: State, a: seq<Event>, e: Event)
    ensures Run(s, a + [e]) == Step(Run(s, a), e)
  {
    RunConcat(s, a, [e]);
    RunOne(Run(s, a), e);
  }

  /** Only an execution recorded for a session, and a synchronisation while it is not
      locked, move its holding. */
  lemma HoldingFollows(s: State, e: Event, sid: int)
    requires sid in s.holding
    requires e.Filled? && e.row < |s.rows| ==> s.rows[e.row].executed <= s.rows[e.row].quantity
    ensures sid in Step(s, e).holding
    ensures var held, now := s.holding[sid], Step(s, e).holding[sid];
      if e.Synced? && e.sid == sid && sid !in s.locked then now == e.qty
      else if e.Filled? && e.row < |s.rows| && s.rows[e.row].open && s.rows[e.row].session == Some(sid) then
        var r := s.rows[e.row];
        var applied := MinInt(e.qty, r.quantity - r.executed);
        && Step(s, e).rows[e.row] == r.(executed := r.executed + applied, open := r.executed + applied < r.quantity)
        && now == (if r.side == L.Buy then held + applied else if applied < held then held - applied else 0)
      else now == held
  {
  }

  /** Only a call whose order was taken and pauses its session raises the pending flag of
      a session, apart from a change from outside, and only such a change clears it. */
  lemma FlagFollows(s: State, e: Event, sid: int)
    ensures sid in Step(s, e).pending <==>
      if e.PendingChanged? && e.sid == sid then e.pending
      else
        || sid in s.pending
        || (e.Written? && IsSaving(s, e.call) && s.calls[e.call].sid == sid
            && s.calls[e.call].phase.accepted && s.calls[e.call].pauseAfterSell)
  {
  }

  lemma RunNext(s: State, es: seq<Event>, n: nat)
    requires n < |es|
    ensures Run(s, es[..n + 1]) == Step(Run(s, es[..n]), es[n])
  {
    assert es[..n + 1][..n] == es[..n];
  }
}
