/** A session that buys only by signal never commits more than its budget and
    never exceeds its add-on limit, in any state it can reach. */
module Budget {
  import opened Numbers
  import opened OrderLedger
  import opened Position
  import opened Trading
  import opened TradingDesk
  import opened Conservation
  import TradeMeta

  /** What an order may still cost at its limit. */
  function Commitment(o: Order): real { (o.quantity - o.executedQuantity) as real * o.price }

  /** An open buy of the session fits beside the held shares, and if it is an
      add-on without a fill yet, one more add-on is allowed. */
  predicate BuyFits(s: Session, o: Order) {
    && o.price > 0.0
    && BookValue(s) + Commitment(o) <= s.investmentAmount as real
    && (o.executedQuantity == 0 && s.holdingQty > 0 ==> s.addOnBuyCount < Policy(s).maxAddOnCount)
  }

  predicate OpenBuy(o: Order, sid: int) { OfSession(o, sid) && IsOpen(o) && o.side == Buy }

  ghost predicate WithinBudget(d: Desk, sid: int) {
    && Structure(d) && sid in d.sessions
    && BookValue(d.sessions[sid]) <= d.sessions[sid].investmentAmount as real
    && d.sessions[sid].addOnBuyCount <= Policy(d.sessions[sid]).maxAddOnCount
    && (forall i :: 0 <= i < |d.orders| && OpenBuy(d.orders[i], sid) ==> BuyFits(d.sessions[sid], d.orders[i]))
  }

  /** The act leaves buying to signals, fills at or below the limit, and does not
      lower the add-on limit of the session. */
  predicate Disciplined(d: Desk, a: Act, sid: int)
    requires sid in d.sessions
  {
    && !(a.BuyAtOnce? && a.sid == sid)
    && !(a.OrderByHand? && a.sid == sid && a.side == Buy)
    && (a.SettingsChanged? && a.sid == sid ==>
          TradeMeta.StrategyMeta(a.strategyId, a.variant).maxAddOnCount >= Policy(d.sessions[sid]).maxAddOnCount)
    && FillsAtLimit(d, a, sid)
  }

  predicate FillsAtLimit(d: Desk, a: Act, sid: int)
    requires sid in d.sessions
  {
    match EventOf(a)
    case None => true
    case Some((orderNo, e, latest, now)) =>
      match FindOpen(d.orders, orderNo)
      case None => true
      case Some(k) =>
        var (o', r) := StepOrder(d.orders[k], e);
        r.Some? && OfSession(o', sid) && o'.side == Buy ==>
          ResolvedPrice(d.sessions[sid], FillOf(o', r.value, latest, now)) <= o'.price
  }

  // ----- one act -----

  /** A new row that is no open buy of the session, or one that fits. */
  lemma AddKeepsBudget(d: Desk, o: Order, sid: int)
    requires WithinBudget(d, sid) && MayAdd(d, o)
    requires OpenBuy(o, sid) ==> BuyFits(d.sessions[sid], o)
    ensures WithinBudget(d.(orders := d.orders + [o]), sid)
  {
    AddKeepsStructure(d, o);
  }

  lemma CheaperCommitment(requested: int, qty: int, price: real)
    requires 0 <= qty <= requested && price > 0.0
    ensures qty as real * price <= requested as real * price
  {
  }

  /** A new buy of no more than fits beside the held shares fits itself. */
  lemma NewBuyFits(s: Session, o: Order, requested: int)
    requires o.executedQuantity == 0 && 0 <= o.quantity <= requested && o.price > 0.0
    requires BudgetAllows(s, requested, o.price)
    ensures BuyFits(s, o)
  {
    CheaperCommitment(requested, o.quantity, o.price);
  }

  /** A buy by signal that changes the history appends its one row. */
  lemma SignalBuyAppends(cfg: Config, d: Desk, a: Act, sid: int) returns (o: Order, requested: int)
    requires sid in d.sessions && a.BuyBySignal? && a.sid == sid && StepDesk(cfg, d, a).orders != d.orders
    ensures StepDesk(cfg, d, a).orders == d.orders + [o]
    ensures a.price > 0.0 && requested == AutoBuyQty(cfg, d.sessions[sid], a.price)
    ensures o.executedQuantity == 0 && 0 < o.quantity <= requested && o.price == a.price
  {
    var s := d.sessions[sid];
    AutoBuyRow(cfg, sid, s, d.orders, a.price, a.deferred, a.lookupFails, a.buyable, a.reply);
    requested := AutoBuyQty(cfg, s, a.price);
    o := NewRow(s.user, s.stock, Buy, Limit, WithinBroker(requested, a.buyable), a.price,
                Meta(sid, false, None), a.reply);
  }

  /** A row of no more than an automatic buy asks for, at its price, fits. */
  lemma SignalBuyFits(cfg: Config, s: Session, o: Order)
    requires o.price > 0.0 && o.executedQuantity == 0 && 0 < o.quantity <= AutoBuyQty(cfg, s, o.price)
    ensures BuyFits(s, o)
  {
    var requested := AutoBuyQty(cfg, s, o.price);
    AutoBuyFitsBudget(cfg, s, o.price);
    NewBuyFits(s, o, requested);
  }

  lemma OtherRowsAreNoBuys(cfg: Config, d: Desk, a: Act, sid: int)
    requires WithinBudget(d, sid) && Placing(a) && Disciplined(d, a, sid)
    requires !(a.BuyBySignal? && a.sid == sid) && StepDesk(cfg, d, a).orders != d.orders
    ensures var orders' := StepDesk(cfg, d, a).orders;
      |orders'| == |d.orders| + 1 && !OpenBuy(orders'[|d.orders|], sid)
  {
  }

  lemma TouchKeepsBudget(d: Desk, t: int, s: Session, sid: int)
    requires WithinBudget(d, sid) && t in d.sessions && Sound(s)
    requires var was := d.sessions[t];
      s.user == was.user && s.stock == was.stock
    requires t == sid ==> var was := d.sessions[t];
      && BookValue(s) == BookValue(was) && s.holdingQty == was.holdingQty
      && s.investmentAmount == was.investmentAmount
      && s.addOnBuyCount == was.addOnBuyCount
      && Policy(s).maxAddOnCount >= Policy(was).maxAddOnCount
    ensures WithinBudget(d.(sessions := d.sessions[t := s]), sid)
  {
    TouchKeepsStructure(d, t, s);
    var d' := d.(sessions := d.sessions[t := s]);
    forall i | 0 <= i < |d'.orders| && OpenBuy(d'.orders[i], sid) ensures BuyFits(d'.sessions[sid], d'.orders[i]) {
      assert BuyFits(d.sessions[sid], d.orders[i]);
    }
  }

  /** The new row alone, whatever happens to the sessions. */
  lemma PlacedRowKeepsBudget(cfg: Config, d: Desk, a: Act, sid: int)
    requires WithinBudget(d, sid) && Placing(a) && Disciplined(d, a, sid)
    ensures WithinBudget(d.(orders := StepDesk(cfg, d, a).orders), sid)
  {
    var orders' := StepDesk(cfg, d, a).orders;
    PlacingAddsOneRow(cfg, d, a);
    if orders' == d.orders {
      assert d.(orders := orders') == d;
    } else {
      var o :| orders' == d.orders + [o] && MayAdd(d, o) && SellCovered(d, o);
      assert orders'[|d.orders|] == o;
      if a.BuyBySignal? && a.sid == sid {
        var p, _ := SignalBuyAppends(cfg, d, a, sid);
        assert (d.orders + [p])[|d.orders|] == p;
        SignalBuyFits(cfg, d.sessions[sid], o);
      } else {
        OtherRowsAreNoBuys(cfg, d, a, sid);
      }
      AddKeepsBudget(d, o, sid);
    }
  }

  lemma PlacingKeepsBudget(cfg: Config, d: Desk, a: Act, sid: int)
    requires WithinBudget(d, sid) && Placing(a) && Disciplined(d, a, sid)
    ensures WithinBudget(StepDesk(cfg, d, a), sid)
  {
    var d' := StepDesk(cfg, d, a);
    var e := d.(orders := d'.orders);
    PlacingKeepsSessions(cfg, d, a);
    PlacedRowKeepsBudget(cfg, d, a, sid);
    if a.SellBySignal? && a.sid in d.sessions {
      TouchKeepsBudget(e, a.sid, d'.sessions[a.sid], sid);
      assert d' == e.(sessions := e.sessions[a.sid := d'.sessions[a.sid]]);
    } else {
      assert d' == e;
    }
  }

  /** An event on one row only lowers what the row may still cost. */
  lemma RowStepKeepsBudget(d: Desk, k: nat, e: Event, sid: int)
    requires WithinBudget(d, sid) && k < |d.orders|
    ensures WithinBudget(d.(orders := d.orders[k := StepOrder(d.orders[k], e).0]), sid)
  {
    var o := d.orders[k];
    var o' := StepOrder(o, e).0;
    var d' := d.(orders := d.orders[k := o']);
    RowStepKeepsStructure(d, k, e);
    StepKeepsOrder(o, e);
    forall i | 0 <= i < |d'.orders| && OpenBuy(d'.orders[i], sid) ensures BuyFits(d'.sessions[sid], d'.orders[i]) {
      assert BuyFits(d.sessions[sid], d.orders[i]);
      if i == k {
        CheaperCommitment(o.quantity - o.executedQuantity, o'.quantity - o'.executedQuantity, o.price);
      }
    }
  }

  lemma CommitmentMoves(rest: int, qty: int, price: real, limit: real)
    requires 0 <= rest && 0 < qty && 0.0 < price <= limit
    ensures price * qty as real + rest as real * limit <= (rest + qty) as real * limit
    ensures 0.0 <= rest as real * limit
  {
    assert (rest + qty) as real == rest as real + qty as real;
    assert price * qty as real <= limit * qty as real;
  }

  /** A buy fill at or below the limit moves no more money from the commitment
      into the position than was set aside for it. */
  lemma BuyFillFits(s: Session, o: Order, o': Order, f: Fill)
    requires Sound(s) && WellFormed(o) && WellFormed(o') && SameTerms(o, o') && o.side == Buy && f.side == Buy
    requires BuyFits(s, o) && s.addOnBuyCount <= Policy(s).maxAddOnCount
    requires o'.executedQuantity == o.executedQuantity + f.qty && (f.first <==> o.executedQuantity == 0)
    requires Booked(s, f) && ResolvedPrice(s, f) <= o.price
    ensures var t := ApplyFill(s, f);
      && BuyFits(t, o') && BookValue(t) <= t.investmentAmount as real
      && t.addOnBuyCount <= Policy(t).maxAddOnCount
      && (s.holdingQty > 0 ==> t.addOnBuyCount == s.addOnBuyCount + (if o.executedQuantity == 0 then 1 else 0))
  {
    BuyStepCash(s, f);
    CommitmentMoves(o'.quantity - o'.executedQuantity, f.qty, ResolvedPrice(s, f), o.price);
    assert o.quantity - o.executedQuantity == o'.quantity - o'.executedQuantity + f.qty;
  }

  lemma FewerCostLess(avg: real, left: int, held: int)
    requires avg > 0.0 && left <= held
    ensures avg * left as real <= avg * held as real
  {
  }

  lemma SellFillFits(s: Session, f: Fill)
    requires Sound(s) && f.side == Sell && BookValue(s) <= s.investmentAmount as real
    requires s.addOnBuyCount <= Policy(s).maxAddOnCount && 0 <= s.investmentAmount
    ensures var t := ApplyFill(s, f);
      BookValue(t) <= t.investmentAmount as real && t.addOnBuyCount <= Policy(t).maxAddOnCount
  {
    if Booked(s, f) {
      var t := BookSell(s, f);
      if t.holdingQty > 0 {
        assert t.avgBuyPrice == s.avgBuyPrice && t.holdingQty <= s.holdingQty;
        FewerCostLess(s.avgBuyPrice, t.holdingQty, s.holdingQty);
      } else {
        assert t.avgBuyPrice == 0.0;
        assert BookValue(t) == 0.0;
      }
    }
  }

  /** While a row of the session is open, no other row of it is. */
  lemma OnlyOpenRow(d: Desk, k: nat, i: nat, sid: int)
    requires Structure(d) && k < |d.orders| && i < |d.orders| && i != k
    requires OfSession(d.orders[k], sid) && IsOpen(d.orders[k]) && OfSession(d.orders[i], sid)
    ensures !IsOpen(d.orders[i])
  {
    assert RowLinked(d, d.orders[i]) && RowLinked(d, d.orders[k]);
    assert SessionOpen(d.orders[k]);
    assert !SessionOpen(d.orders[i]);
  }

  lemma FillKeepsBudget(d: Desk, k: nat, e: Event, latest: real, now: int, sid: int)
    requires WithinBudget(d, sid) && k < |d.orders| && StepOrder(d.orders[k], e).1.Some?
    requires var (o', r) := StepOrder(d.orders[k], e);
      OfSession(o', sid) && o'.side == Buy ==>
        ResolvedPrice(d.sessions[sid], FillOf(o', r.value, latest, now)) <= o'.price
    ensures var (o', r) := StepOrder(d.orders[k], e);
      WithinBudget(Confirm(d.(orders := d.orders[k := o']), k, r.value, latest, now), sid)
  {
    var o := d.orders[k];
    var (o', r) := StepOrder(o, e);
    var mid := d.(orders := d.orders[k := o']);
    var t := o.meta.sessionId;
    StepKeepsOrder(o, e);
    RowStepKeepsBudget(d, k, e, sid);
    if t in d.sessions {
      var s, f := d.sessions[t], FillOf(o', r.value, latest, now);
      StepKeepsSound(s, Filled(f));
      if t != sid || !Booked(s, f) {
        TouchKeepsBudget(mid, t, ApplyFill(s, f), sid);
      } else {
        TouchKeepsStructure(mid, t, ApplyFill(s, f));
        forall i | 0 <= i < |mid.orders| && OpenBuy(mid.orders[i], sid) && i != k ensures false {
          OnlyOpenRow(d, k, i, sid);
        }
        if o.side == Buy {
          assert BuyFits(s, o);
          BuyFillFits(s, o, o', f);
        } else {
          BudgetIsPositive(s);
          SellFillFits(s, f);
        }
      }
    }
  }

  lemma BudgetIsPositive(s: Session)
    requires Sound(s) && BookValue(s) <= s.investmentAmount as real
    ensures 0 <= s.investmentAmount
  {
    assert BookValue(s) >= 0.0;
  }

  lemma ExecuteKeepsBudget(d: Desk, orderNo: string, e: Event, latest: real, now: int, a: Act, sid: int)
    requires WithinBudget(d, sid) && EventOf(a) == Some((orderNo, e, latest, now)) && FillsAtLimit(d, a, sid)
    ensures WithinBudget(Execute(d, orderNo, e, latest, now), sid)
  {
    match FindOpen(d.orders, orderNo)
    case None =>
    case Some(k) =>
      StepKeepsOrder(d.orders[k], e);
      if StepOrder(d.orders[k], e).1.None? {
        RowStepKeepsBudget(d, k, e, sid);
      } else {
        FillKeepsBudget(d, k, e, latest, now, sid);
      }
  }

  lemma RejectKeepsBudget(d: Desk, orderNo: string, sid: int)
    requires WithinBudget(d, sid)
    ensures WithinBudget(RejectOrder(d, orderNo), sid)
  {
    match FindOpen(d.orders, orderNo)
    case None =>
    case Some(k) =>
      RowStepKeepsBudget(d, k, Rejected, sid);
      var mid := d.(orders := d.orders[k := StepOrder(d.orders[k], Rejected).0]);
      var t := d.orders[k].meta.sessionId;
      if t in d.sessions {
        TouchKeepsBudget(mid, t, d.sessions[t].(autoPausePending := false), sid);
      }
  }

  lemma StepKeepsBudget(cfg: Config, d: Desk, a: Act, sid: int)
    requires WithinBudget(d, sid) && Disciplined(d, a, sid)
    ensures WithinBudget(StepDesk(cfg, d, a), sid)
  {
    match a
    case Notification(orderNo, rejected, executed, qty, price, orderPrice, latestPrice, now) =>
      if rejected {
        RejectKeepsBudget(d, orderNo, sid);
      } else if executed && qty > 0 {
        ExecuteKeepsBudget(d, orderNo, Notified(qty, price, orderPrice), latestPrice, now, a, sid);
      }
    case Poll(orderNo, report, latestPrice, now) =>
      ExecuteKeepsBudget(d, orderNo, Polled(report), latestPrice, now, a, sid);
    case PriceEvaluated(t, price) =>
      if t in d.sessions {
        StepKeepsSound(d.sessions[t], Evaluated(price));
        TouchKeepsBudget(d, t, Step(d.sessions[t], Evaluated(price)), sid);
      }
    case LifeChanged(t, life, pending) =>
      if t in d.sessions {
        TouchKeepsBudget(d, t, d.sessions[t].(life := life, autoPausePending := pending), sid);
      }
    case SettingsChanged(t, strategyId, variant, takeProfitPct, stopLossPct, addOnAllowed) =>
      if t in d.sessions && d.sessions[t].life != Stopped {
        TouchKeepsBudget(d, t, StepDesk(cfg, d, a).sessions[t], sid);
      }
    case _ =>
      PlacingKeepsBudget(cfg, d, a, sid);
  }

  // ----- runs -----

  predicate AllDisciplined(cfg: Config, d: Desk, acts: seq<Act>, sid: int)
    decreases |acts|
  {
    |acts| == 0 ||
      var mid := RunDesk(cfg, d, acts[..|acts| - 1]);
      AllDisciplined(cfg, d, acts[..|acts| - 1], sid)
      && sid in mid.sessions && Disciplined(mid, acts[|acts| - 1], sid)
  }

  /** A flat session without orders is within any budget that is not negative. */
  lemma FlatSessionWithinBudget(sessions: map<int, Session>, sid: int)
    requires Structure(Desk(sessions, [])) && sid in sessions
    requires var s := sessions[sid]; s.holdingQty == 0 && s.addOnBuyCount == 0 && 0 <= s.investmentAmount
    ensures WithinBudget(Desk(sessions, []), sid)
  {
  }

  /** Through partial fills, add-ons, partial sells and re-entries: the cost of
      the held shares plus the open buy at its limit stays within the budget. */
  lemma {:induction false} BudgetIsSafe(cfg: Config, d: Desk, acts: seq<Act>, sid: int)
    requires WithinBudget(d, sid) && AllDisciplined(cfg, d, acts, sid)
    ensures WithinBudget(RunDesk(cfg, d, acts), sid)
  {
    if |acts| > 0 {
      BudgetIsSafe(cfg, d, acts[..|acts| - 1], sid);
      StepKeepsBudget(cfg, RunDesk(cfg, d, acts[..|acts| - 1]), acts[|acts| - 1], sid);
    }
  }
}
