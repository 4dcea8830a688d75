/** The sell that is split at its awaits does what the sell in one piece does: the two
    models of the sell agree on rows, holdings and flags. */
module SellRefinement {
  import opened Numbers
  import O = OrderLedger
  import P = Position
  import T = Trading
  import S = SellLock
  import L = LiveSells

  /** The row of the split model that stands for an order of the history. */
  predicate Stands(r: S.Row, o: O.Order) {
    && r.user == o.user && r.stock == o.stock && r.side == o.side
    && r.quantity == o.quantity && r.executed == o.executedQuantity && (r.open <==> O.IsOpen(o))
    && (r.session == if o.meta.sessionId == 0 then None else Some(o.meta.sessionId))
  }

  ghost predicate AllStand(rows: seq<S.Row>, orders: seq<O.Order>) {
    |rows| == |orders| && forall i :: 0 <= i < |rows| ==> Stands(rows[i], orders[i])
  }

  /** The two states show the same session. */
  ghost predicate Shows(st: S.State, sid: int, s: P.Session, orders: seq<O.Order>) {
    && sid != 0 && S.Known(st, sid) && st.owners[sid] == S.Owner(s.user, s.stock)
    && st.holding[sid] == s.holdingQty && (sid in st.pending <==> s.autoPausePending)
    && AllStand(st.rows, orders)
  }

  lemma SameOpenOrders(st: S.State, sid: int, s: P.Session, orders: seq<O.Order>)
    requires Shows(st, sid, s, orders)
    ensures S.HasOpenRow(st, st.owners[sid]) <==> T.HasOpenOrder(orders, s.user, s.stock)
  {
    if i :| 0 <= i < |st.rows| && st.rows[i].open && st.rows[i].user == s.user && st.rows[i].stock == s.stock {
      assert Stands(st.rows[i], orders[i]) && O.IsOpen(orders[i]);
    }
    if i :| 0 <= i < |orders| && O.IsOpen(orders[i]) && orders[i].user == s.user && orders[i].stock == s.stock {
      assert Stands(st.rows[i], orders[i]) && st.rows[i].open;
    }
  }

  /** A market sell of `sellQty` shares, or of all, in one piece. */
  function InOnePiece(sid: int, s: P.Session, orders: seq<O.Order>, sellQty: Option<int>, pause: bool, reply: O.Reply)
    : (P.Session, seq<O.Order>)
  {
    T.AutoSell(sid, s, orders, 0.0, T.SellOptions(sellQty, Some(pause), None, None, None), false, reply)
  }

  /** The sell in one piece of a session that may sell. */
  lemma SoldInOnePiece(st: S.State, c: int, sid: int, s: P.Session, orders: seq<O.Order>, sellQty: Option<int>,
                       pause: bool, accepted: bool, ok: bool)
    requires Shows(st, sid, s, orders) && L.MaySell(st, c, sid, sellQty)
    ensures var reply := if accepted then O.Taken(Some("1"), ok) else O.Unreachable(ok);
      var (s', orders') := InOnePiece(sid, s, orders, sellQty, pause, reply);
      Shows(L.Sold(st, sid, sellQty, pause, accepted, ok), sid, s', orders')
  {
    SameOpenOrders(st, sid, s, orders);
  }

  lemma StoppedInOnePiece(st: S.State, c: int, sid: int, s: P.Session, orders: seq<O.Order>, sellQty: Option<int>,
                          pause: bool, reply: O.Reply)
    requires Shows(st, sid, s, orders) && c !in st.calls && sid !in st.locked && !L.MaySell(st, c, sid, sellQty)
    ensures InOnePiece(sid, s, orders, sellQty, pause, reply) == (s, orders)
  {
    SameOpenOrders(st, sid, s, orders);
  }

  /** Left alone, the split sell and the sell in one piece end in states that show the
      same: it sends the same quantity, writes the same row and raises the same flag,
      whatever the broker answers and whether or not the row is written. */
  lemma LoneSellIsInOnePiece(st: S.State, c: int, sid: int, s: P.Session, orders: seq<O.Order>, sellQty: Option<int>,
                             pause: bool, accepted: bool, ok: bool)
    requires Shows(st, sid, s, orders) && c !in st.calls && sid !in st.locked
    ensures var reply := if accepted then O.Taken(Some("1"), ok) else O.Unreachable(ok);
      var (s', orders') := InOnePiece(sid, s, orders, sellQty, pause, reply);
      Shows(S.Run(st, L.SellOnce(c, sid, sellQty, pause, accepted, ok)), sid, s', orders')
  {
    if L.MaySell(st, c, sid, sellQty) {
      L.LoneSell(st, c, sid, sellQty, pause, accepted, ok);
      SoldInOnePiece(st, c, sid, s, orders, sellQty, pause, accepted, ok);
    } else {
      L.StoppedSell(st, c, sid, sellQty, pause, accepted, ok);
      var reply := if accepted then O.Taken(Some("1"), ok) else O.Unreachable(ok);
      StoppedInOnePiece(st, c, sid, s, orders, sellQty, pause, reply);
    }
  }

  /** One execution of a sell moves row and holding of the split model as it moves those
      of the history and the session. */
  lemma FillIsExecution(r: S.Row, o: O.Order, qty: nat, price: real, s: P.Session, f: P.Fill)
    requires O.WellFormed(o) && O.IsOpen(o) && Stands(r, o) && P.Sound(s)
    requires var (o', recorded) := O.ApplyNotification(o, qty, price, price);
      recorded.Some? && f.side == o.side && f.qty == recorded.value.appliedQty && P.IsFill(s, P.Filled(f), o.side)
    ensures Stands(S.FillRow(r, qty), O.ApplyNotification(o, qty, price, price).0)
    ensures S.FillHolding(s.holdingQty, r, qty) == P.ApplyFill(s, f).holdingQty
  {
  }
}
