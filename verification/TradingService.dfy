/** The trading service as the program has it: sessions that are objects, the
    order service, and the set of sessions with a sell in flight. Each call is
    proved to be the step TradingDesk describes. */
module TradingService {
  import opened Numbers
  import opened OrderLedger
  import opened OrderService
  import opened Position
  import opened SessionEntity
  import opened Trading
  import opened TradingDesk
  import L = ExitLadder

  class AutoTradingService {
    const cfg: Config
    const orders: KisOrderService
    var sessions: map<int, AutoTradingSession>
    var sellInFlight: set<int>

    ghost predicate Valid()
      reads this, orders
    {
      && orders.Valid()
      && forall a, b :: a in sessions && b in sessions && a != b ==> sessions[a] != sessions[b]
    }

    ghost function View(): Desk
      reads this, orders, orders.rows, sessions.Values
    {
      Desk(map sid | sid in sessions :: sessions[sid].View(), orders.Ledger())
    }

    constructor (cfg: Config, orders: KisOrderService, sessions: map<int, AutoTradingSession>)
      requires orders.Valid()
      requires forall a, b :: a in sessions && b in sessions && a != b ==> sessions[a] != sessions[b]
      ensures Valid() && this.cfg == cfg && this.orders == orders && this.sessions == sessions && sellInFlight == {}
    {
      this.cfg, this.orders, this.sessions, this.sellInFlight := cfg, orders, sessions, {};
    }

    method FindOpenOrder(user: int, stock: string) returns (found: bool)
      ensures found == HasOpenOrder(orders.Ledger(), user, stock)
    {
      var i := 0;
      while i < |orders.rows|
        invariant 0 <= i <= |orders.rows|
        invariant !HasOpenOrder(orders.Ledger()[..i], user, stock)
      {
        var row := orders.rows[i];
        if (row.status == Accepted || row.status == Partial) && row.user == user && row.stock == stock {
          assert orders.Ledger()[i] == row.View();
          return true;
        }
        assert orders.Ledger()[..i + 1] == orders.Ledger()[..i] + [row.View()];
        i := i + 1;
      }
      assert orders.Ledger()[..i] == orders.Ledger();
      found := false;
    }

    /** The guards and the budget of an automatic buy; 0 or less when it must not
        buy, None when the quantity is no finite number. */
    method RequestedBuyQty(session: AutoTradingSession, price: real) returns (requested: Option<int>)
      ensures requested == AutoBuyRequest(cfg, session.View(), price)
    {
      var isAddOn := session.holdingQty > 0;
      var meta := Policy(session.View());
      if isAddOn {
        if !session.addOnAllowed {
          return Some(0);
        }
        if session.addOnBuyCount >= meta.maxAddOnCount {
          return Some(0);
        }
      }
      var ratio := if isAddOn then meta.addOnBuyRatioPct else meta.initialBuyRatioPct;
      var tradeAmount := session.investmentAmount as real * (ratio / 100.0);
      var alreadySpent := session.avgBuyPrice * session.holdingQty as real;
      var remaining := session.investmentAmount as real - alreadySpent;
      if remaining <= 0.0 {
        return Some(0);
      }
      if tradeAmount > remaining {
        tradeAmount := remaining;
      }
      if price == 0.0 {
        return None;
      }
      assert remaining == RemainingBudget(session.View());
      assert tradeAmount == TradeAmount(session.View());
      requested := Some(BuyQuantity(cfg, session.View(), price, tradeAmount, remaining, isAddOn));
    }

    /** Sends a limit buy of what was asked for, as far as the broker allows. */
    method SubmitBuy(sid: int, requested: Option<int>, price: real, buyable: Option<int>, reply: Reply)
      requires Valid() && sid in sessions
      modifies orders
      ensures Valid()
      ensures var s, before := sessions[sid].View(), old(orders.Ledger());
        var qty := if requested.Some? then WithinBroker(requested.value, buyable)
                   else if buyable.Some? then buyable.value else 0;
        orders.Ledger() == if qty <= 0 then before
                           else PlaceOrder(before, s.user, s.stock, Buy, Limit, qty, price,
                                           Meta(sid, false, None), reply).0
    {
      var session := sessions[sid];
      var qty := if requested.Some? then WithinBroker(requested.value, buyable)
                 else if buyable.Some? then buyable.value else 0;
      if qty <= 0 {
        return;
      }
      var _ := orders.OrderCash(session.user, session.stock, Buy, Limit, qty, price, Meta(sid, false, None), reply);
    }

    method ExecuteBuy(sid: int, price: real, deferred: bool, lookupFails: bool, buyable: Option<int>, reply: Reply)
      requires Valid() && sid in sessions
      modifies orders
      ensures Valid()
      ensures orders.Ledger() == AutoBuy(cfg, sid, sessions[sid].View(), old(orders.Ledger()), price,
                                         deferred, lookupFails, buyable, reply)
    {
      var session := sessions[sid];
      if deferred {
        return;
      }
      var open := FindOpenOrder(session.user, session.stock);
      if lookupFails || open {
        return;
      }
      var requested := RequestedBuyQty(session, price);
      if requested.Some? && requested.value <= 0 {
        return;
      }
      SubmitBuy(sid, requested, price, buyable, reply);
    }

    method ExecuteImmediateBuy(sid: int, lastPrice: Option<real>, lookupFails: bool, buyable: Option<int>, reply: Reply)
      requires Valid() && sid in sessions
      modifies orders
      ensures Valid()
      ensures orders.Ledger() == ImmediateBuy(cfg, sid, sessions[sid].View(), old(orders.Ledger()), lastPrice,
                                              lookupFails, buyable, reply)
    {
      var session := sessions[sid];
      var open := FindOpenOrder(session.user, session.stock);
      if lookupFails || open || lastPrice.None? || lastPrice.value <= 0.0 {
        return;
      }
      var requested := ImmediateBuyQty(cfg, session.View(), lastPrice.value);
      if requested <= 0 {
        return;
      }
      var qty := WithinBroker(requested, buyable);
      if qty <= 0 {
        return;
      }
      var _ := orders.OrderCash(session.user, session.stock, Buy, Market, qty, 0.0, Meta(sid, false, None), reply);
    }

    /** Sends the sell and, when the broker takes it, raises the pending flag. */
    method SubmitSell(sid: int, sellQty: int, price: real, opts: SellOptions, reply: Reply)
      requires Valid() && sid in sessions && sellQty == SellQty(sessions[sid].View(), opts)
      modifies orders, sessions[sid]
      ensures Valid()
      ensures var s, before := old(sessions[sid].View()), old(orders.Ledger());
        var (after, taken) := PlaceOrder(before, s.user, s.stock, Sell, SellDivision(opts), sellQty,
          SellPrice(opts, price), Meta(sid, PausesAfter(s, opts), opts.stage), reply);
        && orders.Ledger() == after
        && sessions[sid].View() == if taken && PausesAfter(s, opts) then s.(autoPausePending := true) else s
    {
      var session := sessions[sid];
      var pauseAfterSell := sellQty >= session.holdingQty || opts.pauseAfterSell != Some(false);
      var division := if opts.division.Some? then opts.division.value else Market;
      var orderPrice := if division == Market then 0.0
                        else if opts.orderPrice.Some? then opts.orderPrice.value else price;
      var taken := orders.OrderCash(session.user, session.stock, Sell, division, sellQty, orderPrice,
                                    Meta(sid, pauseAfterSell, opts.stage), reply);
      if taken && pauseAfterSell {
        session.autoPausePending := true;
      }
    }

    method ExecuteSell(sid: int, price: real, opts: SellOptions, lookupFails: bool, reply: Reply)
      requires Valid() && sid in sessions
      modifies this`sellInFlight, orders, sessions[sid]
      ensures Valid() && sellInFlight == old(sellInFlight)
      ensures (sessions[sid].View(), orders.Ledger()) ==
                if sid in old(sellInFlight) then (old(sessions[sid].View()), old(orders.Ledger()))
                else AutoSell(sid, old(sessions[sid].View()), old(orders.Ledger()), price, opts, lookupFails, reply)
    {
      var session := sessions[sid];
      if session.holdingQty <= 0 || session.autoPausePending || sid in sellInFlight {
        return;
      }
      var sellQty := MinInt(if opts.sellQty.Some? then opts.sellQty.value else session.holdingQty, session.holdingQty);
      if sellQty <= 0 {
        return;
      }
      sellInFlight := sellInFlight + {sid};
      var open := FindOpenOrder(session.user, session.stock);
      if !lookupFails && !open {
        SubmitSell(sid, sellQty, price, opts, reply);
      }
      sellInFlight := sellInFlight - {sid};
      assert sellInFlight == old(sellInFlight);
    }

    method CheckManualOrder(session: AutoTradingSession, side: Side, qty: int, blocked: bool)
      returns (error: Option<Conflict>)
      ensures error == ManualConflict(session.View(), side, qty, blocked)
    {
      if session.life == Stopped {
        return Some(SessionStopped);
      }
      if side == Sell && session.holdingQty <= 0 {
        return Some(NoHoldings);
      }
      if side == Sell && qty > session.holdingQty {
        return Some(ExceedHoldings);
      }
      if blocked {
        return Some(OpenOrderExists);
      }
      error := None;
    }

    method ExecuteManualOrder(sid: int, side: Side, division: Division, qty: int, limitPrice: Option<real>,
                              lookupFails: bool, buyable: Option<int>, reply: Reply) returns (error: Option<Conflict>)
      requires Valid() && sid in sessions
      modifies orders
      ensures Valid()
      ensures (orders.Ledger(), error) == ManualOrder(sid, sessions[sid].View(), old(orders.Ledger()), side, division,
                                                      qty, limitPrice, lookupFails, buyable, reply)
    {
      error := FindConflict(sid, side, qty, lookupFails);
      if error.Some? {
        return;
      }
      error := SubmitWithinBroker(sid, side, division, qty, ManualPrice(division, limitPrice), buyable, reply);
    }

    /** The checks of an order by hand, the open-order lookup last. */
    method FindConflict(sid: int, side: Side, qty: int, lookupFails: bool) returns (error: Option<Conflict>)
      requires Valid() && sid in sessions
      ensures var s := sessions[sid].View();
        error == ManualConflict(s, side, qty, lookupFails || HasOpenOrder(orders.Ledger(), s.user, s.stock))
    {
      var session := sessions[sid];
      var open := FindOpenOrder(session.user, session.stock);
      error := CheckManualOrder(session, side, qty, lookupFails || open);
    }

    /** A buy is cut to what the broker allows; a sell is sent as it is. */
    method SubmitWithinBroker(sid: int, side: Side, division: Division, qty: int, price: real, buyable: Option<int>,
                              reply: Reply) returns (error: Option<Conflict>)
      requires Valid() && sid in sessions
      modifies orders
      ensures Valid()
      ensures (orders.Ledger(), error) ==
        ManualSubmission(sid, sessions[sid].View(), old(orders.Ledger()), side, division, qty, price, buyable, reply)
    {
      var orderQty := qty;
      if side == Buy {
        orderQty := WithinBroker(qty, buyable);
        if orderQty <= 0 {
          return Some(NoBuyableQuantity);
        }
      }
      error := SubmitManual(sid, side, division, orderQty, price, reply);
    }

    method SubmitManual(sid: int, side: Side, division: Division, qty: int, price: real, reply: Reply)
      returns (error: Option<Conflict>)
      requires Valid() && sid in sessions
      modifies orders
      ensures Valid()
      ensures var s := sessions[sid].View();
        var (after, taken) := PlaceOrder(old(orders.Ledger()), s.user, s.stock, side, division, qty, price,
                                         Meta(sid, false, None), reply);
        && orders.Ledger() == after
        && error == if !ValidRequest(division, qty, price) then Some(BadRequest)
                    else if taken then None else Some(OrderFailed)
    {
      var session := sessions[sid];
      if !ValidRequest(division, qty, price) {
        return Some(BadRequest);
      }
      var taken := orders.OrderCash(session.user, session.stock, side, division, qty, price,
                                    Meta(sid, false, None), reply);
      error := if taken then None else Some(OrderFailed);
    }

    /** Books an execution recorded on row `k` in the session it belongs to. */
    method ApplyConfirmedOrderExecution(k: nat, r: Recorded, latestPrice: real, now: int)
      requires Valid() && k < |orders.rows|
      modifies sessions.Values
      ensures Valid() && View() == Confirm(old(View()), k, r, latestPrice, now)
    {
      var history := orders.rows[k];
      var sid := history.meta.sessionId;
      if sid == 0 || sid !in sessions {
        return;
      }
      var f := FillOf(history.View(), r, latestPrice, now);
      sessions[sid].ApplyConfirmedOrderExecution(f);
      SessionChanged(sid);
    }

    /** When one session object changed, so did the desk in that one place. */
    twostate lemma SessionChanged(sid: int)
      requires old(Valid()) && Valid() && sid in sessions && sessions == old(sessions)
      requires orders.Ledger() == old(orders.Ledger())
      requires forall t :: t in sessions && t != sid ==> unchanged(sessions[t])
      ensures View() == old(View()).(sessions := old(View()).sessions[sid := sessions[sid].View()])
    {
      forall t | t in sessions && t != sid
        ensures sessions[t].View() == old(sessions[t].View())
      {
        assert unchanged(sessions[t]);
      }
      assert View().sessions == old(View()).sessions[sid := sessions[sid].View()];
    }

    /** When only the history changed, the sessions of the desk did not. */
    twostate lemma HistoryChanged()
      requires sessions == old(sessions)
      requires forall t :: t in sessions ==> unchanged(sessions[t])
      ensures View() == old(View()).(orders := orders.Ledger())
    {
      forall t | t in sessions
        ensures sessions[t].View() == old(sessions[t].View())
      {
        assert unchanged(sessions[t]);
      }
      assert View().sessions == old(View()).sessions;
    }

    method ConfirmIfRecorded(hit: Option<(nat, Recorded)>, latestPrice: real, now: int)
      requires Valid() && (hit.Some? ==> hit.value.0 < |orders.rows|)
      modifies sessions.Values
      ensures Valid()
      ensures View() == if hit.None? then old(View())
                        else Confirm(old(View()), hit.value.0, hit.value.1, latestPrice, now)
    {
      if hit.Some? {
        ApplyConfirmedOrderExecution(hit.value.0, hit.value.1, latestPrice, now);
      }
    }

    method ClearPending(sid: int)
      requires Valid() && sid in sessions
      modifies sessions[sid]
      ensures Valid()
      ensures View() == old(View()).(sessions :=
                old(View()).sessions[sid := old(View()).sessions[sid].(autoPausePending := false)])
    {
      if sessions[sid].autoPausePending {
        sessions[sid].autoPausePending := false;
      }
      SessionChanged(sid);
    }

    method RejectOrder(orderNo: string)
      requires Valid()
      modifies orders.rows, sessions.Values
      ensures Valid() && View() == TradingDesk.RejectOrder(old(View()), orderNo)
    {
      var k := orders.MarkOrderRejected(orderNo);
      HistoryChanged();
      if k.None? {
        return;
      }
      var meta := orders.rows[k.value].meta;
      if meta.pauseAfterSell && meta.sessionId > 0 && meta.sessionId in sessions {
        ClearPending(meta.sessionId);
      }
    }

    method HandleOrderNotification(orderNo: string, rejected: bool, executed: bool, qty: int, price: real,
                                   orderPrice: real, latestPrice: real, now: int)
      requires Valid()
      modifies orders.rows, sessions.Values
      ensures Valid()
      ensures View() == StepDesk(cfg, old(View()),
                Notification(orderNo, rejected, executed, qty, price, orderPrice, latestPrice, now))
    {
      if rejected {
        RejectOrder(orderNo);
        return;
      }
      if !executed || qty <= 0 {
        return;
      }
      var hit := orders.RecordExecutionNotification(orderNo, qty, price, orderPrice);
      HistoryChanged();
      ConfirmIfRecorded(hit, latestPrice, now);
    }

    method PollOrderExecution(orderNo: string, report: Report, latestPrice: real, now: int)
      requires Valid()
      modifies orders.rows, sessions.Values
      ensures Valid()
      ensures View() == StepDesk(cfg, old(View()), Poll(orderNo, report, latestPrice, now))
    {
      var hit := orders.RecordPolledOrderExecution(orderNo, report);
      HistoryChanged();
      ConfirmIfRecorded(hit, latestPrice, now);
    }

    /** Takes the price into the peak and says which exit, if any, is due. */
    method DecideExit(session: AutoTradingSession, scene: L.Scene, price: real) returns (exit: L.Exit)
      modifies session
      ensures session.View() == Step(old(session.View()), Evaluated(price))
      ensures exit == L.Decide(old(session.View()), scene, price)
    {
      if session.autoPausePending || session.holdingQty <= 0 || session.avgBuyPrice <= 0.0 {
        return L.Hold;
      }
      var avg := session.avgBuyPrice;
      var returnPct := L.ReturnPct(avg, price);
      var _ := session.UpdateHighestPriceAfterEntry(price);
      var peakPrice := MaxReal(OrElse(session.highestPriceAfterEntry, avg), avg);
      var peakReturnPct, givebackPct := L.ReturnPct(avg, peakPrice), L.GivebackPct(peakPrice, price);
      exit := ChooseExit(session, scene, returnPct, peakReturnPct, givebackPct, price);
    }

    /** Looks at a price for a session and sells when an exit is due, unless a
        sell of the session is in flight. */
    method EvaluateAndExecuteSell(sid: int, price: real, scene: L.Scene, lookupFails: bool, reply: Reply)
      returns (acted: bool)
      requires Valid() && sid in sessions
      modifies this`sellInFlight, orders, sessions[sid]
      ensures Valid() && sellInFlight == old(sellInFlight)
      ensures (sessions[sid].View(), orders.Ledger()) ==
                if sid in sellInFlight then (Step(old(sessions[sid].View()), Evaluated(price)), old(orders.Ledger()))
                else L.EvaluateSell(sid, old(sessions[sid].View()), old(orders.Ledger()), scene, price,
                                    lookupFails, reply)
      ensures acted <==> !L.Decide(old(sessions[sid].View()), scene, price).Hold?
    {
      var exit := DecideExit(sessions[sid], scene, price);
      match exit {
        case Hold => acted := false;
        case Deferred(_) => acted := true;
        case Leave(_, opts) =>
          ExecuteSell(sid, price, opts, lookupFails, reply);
          acted := true;
      }
    }

    /** The ladder, branch by branch. */
    method ChooseExit(session: AutoTradingSession, scene: L.Scene, returnPct: real, peakReturnPct: real,
                      givebackPct: real, price: real) returns (exit: L.Exit)
      ensures exit == L.Ladder(session.View(), scene, returnPct, peakReturnPct, givebackPct, price)
    {
      if returnPct <= session.stopLossPct {
        return L.Leave(L.StopLoss, L.StopOptions(scene, price));
      }
      var isRunner := scene.scaleOut && session.scaleOutStage > 0;
      if isRunner && returnPct >= L.RUNNER_TAKE_PROFIT_PCT {
        return L.Leave(L.RunnerProfit, L.ALL);
      }
      if scene.scaleOut && session.scaleOutStage == 0 && returnPct >= L.FIRST_TARGET_PCT {
        var sellQty := L.ScaleOutSellQty(session.holdingQty, L.FIRST_TARGET_SELL_PCT, L.MIN_REMAINDER_QTY);
        if sellQty > 0 {
          if scene.interrupted {
            return L.Deferred(L.FirstTarget);
          }
          var partial := sellQty < session.holdingQty;
          return L.Leave(L.FirstTarget, SellOptions(Some(sellQty), Some(!partial), Some(1), None, None));
        }
      }
      if !isRunner && returnPct >= session.takeProfitPct {
        return L.Leave(L.TakeProfit, L.ALL);
      }
      var trailTrigger := if isRunner then 3.5 else 1.8;
      var trailGiveback := if isRunner then 2.5 else 1.2;
      var breakevenTrigger := if isRunner then 4.0 else 1.5;
      var breakevenFloor := if isRunner then 1.0 else 0.0;
      if !scene.inGrace && peakReturnPct >= breakevenTrigger && returnPct <= breakevenFloor {
        return if scene.interrupted then L.Deferred(L.Breakeven) else L.Leave(L.Breakeven, L.ALL);
      }
      if !scene.inGrace && peakReturnPct >= trailTrigger && givebackPct >= trailGiveback {
        return if scene.interrupted then L.Deferred(L.TrailingStop) else L.Leave(L.TrailingStop, L.ALL);
      }
      exit := if scene.heldTooLong then L.Leave(L.HeldTooLong, L.ALL) else L.Hold;
    }
  }
}
