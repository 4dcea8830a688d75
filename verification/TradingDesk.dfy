/** Sessions and order history together: every service call is one event, and
    the two ledgers agree after any run of events. */
module TradingDesk {
  import opened Numbers
  import opened OrderLedger
  import opened Position
  import opened Trading

  datatype Desk = Desk(sessions: map<int, Session>, orders: seq<Order>)

  datatype Act =
    | BuyBySignal(sid: int, price: real, deferred: bool, lookupFails: bool, buyable: Option<int>, reply: Reply)
    | BuyAtOnce(sid: int, lastPrice: Option<real>, lookupFails: bool, buyable: Option<int>, reply: Reply)
    | SellBySignal(sid: int, price: real, opts: SellOptions, lookupFails: bool, reply: Reply)
    | OrderByHand(sid: int, side: Side, division: Division, qty: int, limitPrice: Option<real>,
                  lookupFails: bool, buyable: Option<int>, reply: Reply)
    | OrderWithoutSession(user: int, stock: string, side: Side, division: Division, qty: int, price: real, reply: Reply)
    | Notification(orderNo: string, rejected: bool, executed: bool, qty: int, price: real, orderPrice: real,
                   latestPrice: real, now: int)
    | Poll(orderNo: string, report: Report, latestPrice: real, now: int)
    | PriceEvaluated(sid: int, price: real)
    | LifeChanged(sid: int, life: Life, pending: bool)
    | SettingsChanged(sid: int, strategyId: string, variant: Option<string>, takeProfitPct: real, stopLossPct: real,
                      addOnAllowed: bool)

  /** What an execution recorded on row `k` does to the sessions. */
  function Confirm(d: Desk, k: nat, r: Recorded, latestPrice: real, now: int): Desk
    requires k < |d.orders|
  {
    var sid := d.orders[k].meta.sessionId;
    if sid == 0 || sid !in d.sessions then d
    else d.(sessions := d.sessions[sid := ApplyFill(d.sessions[sid], FillOf(d.orders[k], r, latestPrice, now))])
  }

  /** An order event reaches the history, and what it recorded its session. */
  function Execute(d: Desk, orderNo: string, e: Event, latestPrice: real, now: int): Desk {
    var (orders', hit) := StepLedger(d.orders, orderNo, e);
    match hit
    case None => d.(orders := orders')
    case Some((k, r)) => Confirm(d.(orders := orders'), k, r, latestPrice, now)
  }

  /** A rejected sell lets its session sell again. */
  function RejectOrder(d: Desk, orderNo: string): Desk {
    var orders' := StepLedger(d.orders, orderNo, Rejected).0;
    match FindOpen(d.orders, orderNo)
    case None => d
    case Some(k) =>
      var sid := d.orders[k].meta.sessionId;
      if d.orders[k].meta.pauseAfterSell && sid > 0 && sid in d.sessions
      then Desk(d.sessions[sid := d.sessions[sid].(autoPausePending := false)], orders')
      else d.(orders := orders')
  }

  function StepDesk(cfg: Config, d: Desk, a: Act): Desk {
    match a
    case BuyBySignal(sid, price, deferred, lookupFails, buyable, reply) =>
      if sid !in d.sessions then d
      else d.(orders := AutoBuy(cfg, sid, d.sessions[sid], d.orders, price, deferred, lookupFails, buyable, reply))
    case BuyAtOnce(sid, lastPrice, lookupFails, buyable, reply) =>
      if sid !in d.sessions then d
      else d.(orders := ImmediateBuy(cfg, sid, d.sessions[sid], d.orders, lastPrice, lookupFails, buyable, reply))
    case SellBySignal(sid, price, opts, lookupFails, reply) =>
      if sid !in d.sessions then d
      else
        var (s', orders') := AutoSell(sid, d.sessions[sid], d.orders, price, opts, lookupFails, reply);
        Desk(d.sessions[sid := s'], orders')
    case OrderByHand(sid, side, division, qty, limitPrice, lookupFails, buyable, reply) =>
      if sid !in d.sessions then d
      else d.(orders := ManualOrder(sid, d.sessions[sid], d.orders, side, division, qty, limitPrice,
                                    lookupFails, buyable, reply).0)
    case OrderWithoutSession(user, stock, side, division, qty, price, reply) =>
      d.(orders := PlaceOrder(d.orders, user, stock, side, division, qty, price, Meta(0, false, None), reply).0)
    case Notification(orderNo, rejected, executed, qty, price, orderPrice, latestPrice, now) =>
      if rejected then RejectOrder(d, orderNo)
      else if !executed || qty <= 0 then d
      else Execute(d, orderNo, Notified(qty, price, orderPrice), latestPrice, now)
    case Poll(orderNo, report, latestPrice, now) => Execute(d, orderNo, Polled(report), latestPrice, now)
    case PriceEvaluated(sid, price) =>
      if sid !in d.sessions then d else d.(sessions := d.sessions[sid := Step(d.sessions[sid], Evaluated(price))])
    case LifeChanged(sid, life, pending) =>
      if sid !in d.sessions then d
      else d.(sessions := d.sessions[sid := d.sessions[sid].(life := life, autoPausePending := pending)])
    case SettingsChanged(sid, strategyId, variant, takeProfitPct, stopLossPct, addOnAllowed) =>
      if sid !in d.sessions || d.sessions[sid].life == Stopped then d
      else d.(sessions := d.sessions[sid := d.sessions[sid].(
        strategyId := strategyId, variant := variant, takeProfitPct := takeProfitPct, stopLossPct := stopLossPct,
        addOnAllowed := addOnAllowed)])
  }

  function RunDesk(cfg: Config, d: Desk, acts: seq<Act>): Desk {
    if |acts| == 0 then d else StepDesk(cfg, RunDesk(cfg, d, acts[..|acts| - 1]), acts[|acts| - 1])
  }

  // ----- structure: true whatever prices come in -----

  predicate OfSession(o: Order, sid: int) { sid != 0 && o.meta.sessionId == sid }

  /** Rows are well-formed and belong to their sessions. */
  ghost predicate Linked(d: Desk) {
    && 0 !in d.sessions
    && (forall sid :: sid in d.sessions ==> Sound(d.sessions[sid]))
    && (forall i :: 0 <= i < |d.orders| ==> WellFormed(d.orders[i]))
    && (forall i :: 0 <= i < |d.orders| ==> d.orders[i].meta.sessionId != 0 ==> RowLinked(d, d.orders[i]))
  }

  predicate RowLinked(d: Desk, o: Order) {
    && o.meta.sessionId in d.sessions
    && d.sessions[o.meta.sessionId].user == o.user
    && d.sessions[o.meta.sessionId].stock == o.stock
  }

  /** Open rows of sessions never share a user and stock. */
  ghost predicate OneOpenOrder(orders: seq<Order>) {
    forall i, j :: 0 <= i < j < |orders| && SessionOpen(orders[i]) && SessionOpen(orders[j]) ==>
      !(orders[i].user == orders[j].user && orders[i].stock == orders[j].stock)
  }

  predicate SessionOpen(o: Order) { IsOpen(o) && o.meta.sessionId != 0 }

  ghost predicate Structure(d: Desk) { Linked(d) && OneOpenOrder(d.orders) }

  /** A session that keeps its owner and stays sound keeps the structure. */
  lemma TouchKeepsStructure(d: Desk, sid: int, s: Session)
    requires Structure(d) && sid in d.sessions && Sound(s)
    requires s.user == d.sessions[sid].user && s.stock == d.sessions[sid].stock
    ensures Structure(d.(sessions := d.sessions[sid := s]))
  {
  }

  /** A row joins the structure when it may: it is new, and either it is not
      open, or of no session, or nothing of its user and stock is open. */
  ghost predicate MayAdd(d: Desk, o: Order) {
    && WellFormed(o) && o.executedQuantity == 0
    && (o.meta.sessionId != 0 ==> RowLinked(d, o))
    && (SessionOpen(o) ==> !HasOpenOrder(d.orders, o.user, o.stock))
  }

  lemma AddKeepsStructure(d: Desk, o: Order)
    requires Structure(d) && MayAdd(d, o)
    ensures Structure(d.(orders := d.orders + [o]))
  {
  }

  /** Changing one row by an order event keeps the structure. */
  lemma RowStepKeepsStructure(d: Desk, k: nat, e: Event)
    requires Structure(d) && k < |d.orders|
    ensures Structure(d.(orders := d.orders[k := StepOrder(d.orders[k], e).0]))
  {
    StepKeepsOrder(d.orders[k], e);
    var orders' := d.orders[k := StepOrder(d.orders[k], e).0];
    forall i, j | 0 <= i < j < |orders'| && SessionOpen(orders'[i]) && SessionOpen(orders'[j])
      ensures !(orders'[i].user == orders'[j].user && orders'[i].stock == orders'[j].stock)
    {
      assert SessionOpen(d.orders[i]) && SessionOpen(d.orders[j]);
    }
  }

  /** What an execution does to both ledgers: its row moves, and the session of the row
      takes as many shares as the row gained, at the price recorded or that of the order,
      as its first fill exactly when the row had none. Nothing else moves. */
  lemma ExecutionReachesSession(d: Desk, k: nat, orderNo: string, e: Event, latestPrice: real, now: int)
    requires Structure(d) && FindOpen(d.orders, orderNo) == Some(k)
    ensures var o, (o', r), sid := d.orders[k], StepOrder(d.orders[k], e), d.orders[k].meta.sessionId;
      var d' := Execute(d, orderNo, e, latestPrice, now);
      && d'.orders == d.orders[k := o']
      && d'.sessions ==
           if r.None? || sid !in d.sessions then d.sessions
           else d.sessions[sid := ApplyFill(d.sessions[sid],
             Fill(o.side, o'.executedQuantity - o.executedQuantity, r.value.executionPrice, o.price,
                  o.executedQuantity == 0, o.meta.stage, latestPrice, now))]
  {
    StepKeepsOrder(d.orders[k], e);
  }

  /** What a call on a session is: an order of that session joins the history, and a
      sell may raise its pending flag; nothing else changes. */
  lemma PlacingIs(cfg: Config, d: Desk, a: Act, sid: int)
    requires sid in d.sessions
    ensures var s, d' := d.sessions[sid], StepDesk(cfg, d, a);
      match a
      case BuyBySignal(of, price, deferred, lookupFails, buyable, reply) =>
        of == sid ==> d' == Desk(d.sessions,
          AutoBuy(cfg, sid, s, d.orders, price, deferred, lookupFails, buyable, reply))
      case BuyAtOnce(of, lastPrice, lookupFails, buyable, reply) =>
        of == sid ==> d' == Desk(d.sessions,
          ImmediateBuy(cfg, sid, s, d.orders, lastPrice, lookupFails, buyable, reply))
      case SellBySignal(of, price, opts, lookupFails, reply) =>
        of == sid ==>
          var (s', orders') := AutoSell(sid, s, d.orders, price, opts, lookupFails, reply);
          d' == Desk(d.sessions[sid := s'], orders')
      case OrderByHand(of, side, division, qty, limitPrice, lookupFails, buyable, reply) =>
        of == sid ==> d' == Desk(d.sessions,
          ManualOrder(sid, s, d.orders, side, division, qty, limitPrice, lookupFails, buyable, reply).0)
      case OrderWithoutSession(user, stock, side, division, qty, price, reply) =>
        d' == Desk(d.sessions,
          PlaceOrder(d.orders, user, stock, side, division, qty, price, Meta(0, false, None), reply).0)
      case PriceEvaluated(of, price) => of == sid ==> d' == Desk(d.sessions[sid := Step(s, Evaluated(price))], d.orders)
      case LifeChanged(of, life, pending) =>
        of == sid ==> d' == Desk(d.sessions[sid := s.(life := life, autoPausePending := pending)], d.orders)
      case SettingsChanged(of, strategyId, variant, takeProfitPct, stopLossPct, addOnAllowed) =>
        of == sid ==> d' == if s.life == Stopped then d else Desk(d.sessions[sid := s.(
          strategyId := strategyId, variant := variant, takeProfitPct := takeProfitPct,
          stopLossPct := stopLossPct, addOnAllowed := addOnAllowed)], d.orders)
      case _ => true
  {
  }

  /** A notification of a rejection ends the order; one of an execution of no shares, or
      of anything else, is ignored; any other one, and every poll, reaches the history. */
  lemma HearingIs(cfg: Config, d: Desk, a: Act)
    ensures var d' := StepDesk(cfg, d, a);
      match a
      case Notification(orderNo, rejected, executed, qty, price, orderPrice, latestPrice, now) =>
        d' == if rejected then RejectOrder(d, orderNo)
              else if executed && qty >= 1 then Execute(d, orderNo, Notified(qty, price, orderPrice), latestPrice, now)
              else d
      case Poll(orderNo, report, latestPrice, now) => d' == Execute(d, orderNo, Polled(report), latestPrice, now)
      case _ => true
  {
  }

  /** The row each placing call adds, if it adds one. */
  predicate Placing(a: Act) {
    a.BuyBySignal? || a.BuyAtOnce? || a.SellBySignal? || a.OrderByHand? || a.OrderWithoutSession?
  }

  /** What every placing call promises about the history: nothing, or one new
      row that may join it, no larger than the holding when it sells. */
  ghost predicate Placed(d: Desk, orders': seq<Order>) {
    || orders' == d.orders
    || (exists o :: orders' == d.orders + [o] && MayAdd(d, o) && SellCovered(d, o))
  }

  predicate SellCovered(d: Desk, o: Order) {
    o.side == Sell && SessionOpen(o) && o.meta.sessionId in d.sessions ==>
      o.quantity - o.executedQuantity <= d.sessions[o.meta.sessionId].holdingQty
  }

  lemma PlacingAddsOneRow(cfg: Config, d: Desk, a: Act)
    requires Structure(d) && Placing(a)
    ensures Placed(d, StepDesk(cfg, d, a).orders)
  {
    var orders' := StepDesk(cfg, d, a).orders;
    if orders' != d.orders {
      var o := orders'[|orders'| - 1];
      assert orders' == d.orders + [o];
      assert MayAdd(d, o) && SellCovered(d, o);
    }
  }

  /** What placing does to the sessions: at most one pending flag. */
  lemma PlacingKeepsSessions(cfg: Config, d: Desk, a: Act)
    requires Structure(d) && Placing(a)
    ensures var d' := StepDesk(cfg, d, a);
      && d'.sessions.Keys == d.sessions.Keys
      && forall sid :: sid in d.sessions ==>
           d'.sessions[sid] == d.sessions[sid].(autoPausePending := d'.sessions[sid].autoPausePending)
  {
  }
}
