/** The decisions of the trading service: when it may place an order, for how
    many shares, and the row it then writes to the order history. */
module Trading {
  import opened Numbers
  import opened OrderLedger
  import opened Position
  import TradeMeta

  /** Risk sizing is switched by configuration and off by default. */
  datatype Config = Config(riskSizing: bool, riskPct: real)

  datatype SellOptions = SellOptions(
    sellQty: Option<int>, pauseAfterSell: Option<bool>, stage: Option<int>,
    division: Option<Division>, orderPrice: Option<real>)

  /** An open row of this user and stock; a lookup that fails counts as one. */
  predicate HasOpenOrder(orders: seq<Order>, user: int, stock: string) {
    exists i :: 0 <= i < |orders| && IsOpen(orders[i]) && orders[i].user == user && orders[i].stock == stock
  }

  // ----- how many shares to buy -----

  /** Shares whose loss at the stop stays within the risk budget; None when the
      inputs make no sense. */
  function RiskBasedQty(equity: real, price: real, stopLossPct: real, riskPct: real, budgetCap: real): Option<int> {
    if equity <= 0.0 || price <= 0.0 || stopLossPct >= 0.0 then None
    else
      var perShareRisk := price * (AbsReal(stopLossPct) / 100.0);
      if perShareRisk <= 0.0 then None
      else
        var qty := MinInt(Floor(equity * (riskPct / 100.0) / perShareRisk), Floor(budgetCap / price));
        Some(if qty < 1 then 0 else qty)
  }

  function BuyQuantity(cfg: Config, s: Session, price: real, tradeAmount: real, remaining: real, isAddOn: bool): int
    requires price != 0.0
  {
    var plain := Floor(tradeAmount / price);
    if !cfg.riskSizing || isAddOn then plain
    else
      match RiskBasedQty(s.investmentAmount as real, price, s.stopLossPct, cfg.riskPct, remaining)
      case Some(qty) => qty
      case None => plain
  }

  function Policy(s: Session): TradeMeta.Meta { TradeMeta.StrategyMeta(s.strategyId, s.variant) }

  predicate AddOnBlocked(s: Session) {
    s.holdingQty > 0 && (!s.addOnAllowed || s.addOnBuyCount >= Policy(s).maxAddOnCount)
  }

  function BuyRatio(s: Session): real {
    if s.holdingQty > 0 then Policy(s).addOnBuyRatioPct else Policy(s).initialBuyRatioPct
  }

  /** The part of the budget the held shares have not used up. */
  function RemainingBudget(s: Session): real {
    s.investmentAmount as real - BookValue(s)
  }

  function TradeAmount(s: Session): real {
    MinReal(s.investmentAmount as real * (BuyRatio(s) / 100.0), RemainingBudget(s))
  }

  /** The quantity an automatic buy asks for; 0 or less when it must not buy. */
  function AutoBuyQty(cfg: Config, s: Session, price: real): int
    requires price > 0.0
  {
    if AddOnBlocked(s) || RemainingBudget(s) <= 0.0 then 0
    else BuyQuantity(cfg, s, price, TradeAmount(s), RemainingBudget(s), s.holdingQty > 0)
  }

  /** What is asked for at any price at all. Dividing by a price of 0 gives no
      finite number, None, which is no reason to stop here. */
  function AutoBuyRequest(cfg: Config, s: Session, price: real): Option<int> {
    if AddOnBlocked(s) || RemainingBudget(s) <= 0.0 then Some(0)
    else if price == 0.0 then None
    else Some(BuyQuantity(cfg, s, price, TradeAmount(s), RemainingBudget(s), s.holdingQty > 0))
  }

  /** At a price both are the same question. */
  lemma RequestIsAsked(cfg: Config, s: Session, price: real)
    requires price > 0.0
    ensures AutoBuyRequest(cfg, s, price) == Some(AutoBuyQty(cfg, s, price))
  {
  }

  lemma FlooredCost(amount: real, price: real, qty: int)
    requires price > 0.0 && qty <= Floor(amount / price)
    ensures qty as real * price <= amount
  {
    var shares := amount / price;
    assert shares * price == amount;
    assert qty as real <= shares;
  }

  lemma BuyQuantityFits(cfg: Config, s: Session, price: real, tradeAmount: real, remaining: real, isAddOn: bool)
    requires price > 0.0 && tradeAmount <= remaining
    ensures var qty := BuyQuantity(cfg, s, price, tradeAmount, remaining, isAddOn);
      qty > 0 ==> qty as real * price <= remaining
  {
    var qty := BuyQuantity(cfg, s, price, tradeAmount, remaining, isAddOn);
    if qty > 0 {
      if qty <= Floor(tradeAmount / price) {
        FlooredCost(tradeAmount, price, qty);
      } else {
        FlooredCost(remaining, price, qty);
      }
    }
  }

  lemma TradeAmountFits(s: Session)
    ensures TradeAmount(s) <= RemainingBudget(s)
  {
  }

  lemma NoAddOnPastLimit(cfg: Config, s: Session, price: real)
    requires price > 0.0 && AutoBuyQty(cfg, s, price) > 0 && s.holdingQty > 0
    ensures s.addOnBuyCount < Policy(s).maxAddOnCount
  {
  }

  /** Buying `qty` shares at `price` fits beside the held shares, and is no add-on
      too many. */
  predicate BudgetAllows(s: Session, qty: int, price: real) {
    && BookValue(s) + qty as real * price <= s.investmentAmount as real
    && (s.holdingQty > 0 ==> s.addOnBuyCount < Policy(s).maxAddOnCount)
  }

  lemma PlainlyAllowed(s: Session, qty: int, price: real)
    requires qty as real * price <= RemainingBudget(s)
    requires s.holdingQty > 0 ==> s.addOnBuyCount < Policy(s).maxAddOnCount
    ensures BudgetAllows(s, qty, price)
  {
  }

  /** Whatever an automatic buy asks for, bought at its limit, fits into the
      budget beside the shares already held, with risk sizing on or off. */
  lemma AutoBuyFitsBudget(cfg: Config, s: Session, price: real)
    requires price > 0.0 && AutoBuyQty(cfg, s, price) > 0
    ensures BudgetAllows(s, AutoBuyQty(cfg, s, price), price)
  {
    TradeAmountFits(s);
    BuyQuantityFits(cfg, s, price, TradeAmount(s), RemainingBudget(s), s.holdingQty > 0);
    if s.holdingQty > 0 {
      NoAddOnPastLimit(cfg, s, price);
    }
    PlainlyAllowed(s, AutoBuyQty(cfg, s, price), price);
  }

  lemma AtLeastOne(amount: real, price: real)
    requires 0.0 < price <= amount
    ensures Floor(amount / price) >= 1
  {
    assert amount / price >= 1.0;
  }

  /** From a flat session, a first entry that reaches the price buys a share. */
  lemma FlatSessionBuys(cfg: Config, s: Session, price: real)
    requires price > 0.0 && !cfg.riskSizing && s.holdingQty == 0 && s.avgBuyPrice == 0.0
    requires price <= TradeAmount(s)
    ensures AutoBuyQty(cfg, s, price) >= 1
  {
    TradeAmountFits(s);
    AtLeastOne(TradeAmount(s), price);
  }

  lemma FloorReachesOne(a: real, b: real)
    requires b > 0.0
    ensures Floor(a / b) >= 1 <==> a >= b
  {
    var q := a / b;
    assert q * b == a;
    if a >= b {
      AtLeastOne(a, b);
    }
  }

  lemma ShareRiskIsPositive(price: real, stopLossPct: real)
    requires price > 0.0 && stopLossPct < 0.0
    ensures price * (AbsReal(stopLossPct) / 100.0) > 0.0
  {
    PositiveProduct(price, AbsReal(stopLossPct) / 100.0);
  }

  lemma RiskBasedQtyIff(equity: real, price: real, stopLossPct: real, riskPct: real, budgetCap: real)
    requires equity > 0.0 && price > 0.0 && stopLossPct < 0.0
    ensures var qty := RiskBasedQty(equity, price, stopLossPct, riskPct, budgetCap);
      qty.Some? && (qty.value >= 1 <==>
        price * (AbsReal(stopLossPct) / 100.0) <= equity * (riskPct / 100.0) && price <= budgetCap)
  {
    var risk, loss := equity * (riskPct / 100.0), price * (AbsReal(stopLossPct) / 100.0);
    ShareRiskIsPositive(price, stopLossPct);
    FloorReachesOne(risk, loss);
    FloorReachesOne(budgetCap, price);
  }

  lemma FlatRiskSized(cfg: Config, s: Session, price: real)
    requires price > 0.0 && cfg.riskSizing && s.holdingQty == 0 && s.avgBuyPrice == 0.0 && s.investmentAmount > 0
    requires RiskBasedQty(s.investmentAmount as real, price, s.stopLossPct, cfg.riskPct, RemainingBudget(s)).Some?
    ensures RemainingBudget(s) == s.investmentAmount as real
    ensures AutoBuyQty(cfg, s, price)
         == RiskBasedQty(s.investmentAmount as real, price, s.stopLossPct, cfg.riskPct, RemainingBudget(s)).value
  {
  }

  /** With risk sizing a flat session buys exactly when the loss of one share at
      the stop is within the risk budget and the share within the whole budget. */
  lemma RiskSizedEntryIff(cfg: Config, s: Session, price: real)
    requires price > 0.0 && cfg.riskSizing && s.holdingQty == 0 && s.avgBuyPrice == 0.0
    requires s.investmentAmount > 0 && s.stopLossPct < 0.0
    ensures var equity := s.investmentAmount as real;
      AutoBuyQty(cfg, s, price) >= 1 <==>
      price * (AbsReal(s.stopLossPct) / 100.0) <= equity * (cfg.riskPct / 100.0) && price <= equity
  {
    RiskBasedQtyIff(s.investmentAmount as real, price, s.stopLossPct, cfg.riskPct, RemainingBudget(s));
    FlatRiskSized(cfg, s, price);
  }

  // ----- the request is as large as it may be -----

  /** As many times `unit` as fit into the amount, and not once more. */
  predicate MostOf(qty: int, unit: real, amount: real) {
    qty as real * unit <= amount < (qty + 1) as real * unit
  }

  /** As many as fit into both amounts at their own units, and not once more. */
  predicate MostOfBoth(qty: int, unit1: real, amount1: real, unit2: real, amount2: real) {
    && qty as real * unit1 <= amount1 && qty as real * unit2 <= amount2
    && (amount1 < (qty + 1) as real * unit1 || amount2 < (qty + 1) as real * unit2)
  }

  lemma FloorIsMost(amount: real, unit: real)
    requires unit > 0.0
    ensures MostOf(Floor(amount / unit), unit, amount)
  {
    var q := amount / unit;
    var n := Floor(q);
    assert q * unit == amount;
    assert n as real * unit <= q * unit;
    assert q * unit < (n as real + 1.0) * unit;
    assert (n + 1) as real == n as real + 1.0;
  }

  lemma FewerFit(m: int, n: int, unit: real, amount: real)
    requires m <= n && unit > 0.0 && n as real * unit <= amount
    ensures m as real * unit <= amount
  {
    assert m as real * unit <= n as real * unit;
  }

  lemma LeastFloorIsMost(amount1: real, unit1: real, amount2: real, unit2: real)
    requires unit1 > 0.0 && unit2 > 0.0
    ensures MostOfBoth(MinInt(Floor(amount1 / unit1), Floor(amount2 / unit2)), unit1, amount1, unit2, amount2)
  {
    var n1, n2 := Floor(amount1 / unit1), Floor(amount2 / unit2);
    FloorIsMost(amount1, unit1);
    FloorIsMost(amount2, unit2);
    FewerFit(MinInt(n1, n2), n1, unit1, amount1);
    FewerFit(MinInt(n1, n2), n2, unit2, amount2);
  }

  /** No add-on may be bought: it is switched off, or the policy has no more. */
  predicate NoAddOn(s: Session) {
    s.holdingQty > 0
    && !(s.addOnAllowed && s.addOnBuyCount < TradeMeta.StrategyMeta(s.strategyId, s.variant).maxAddOnCount)
  }

  /** A session that may not add on, or has used up its budget, asks for nothing. */
  lemma BlockedBuysNothing(cfg: Config, s: Session, price: real)
    requires price > 0.0
    requires NoAddOn(s) || s.investmentAmount as real <= s.avgBuyPrice * s.holdingQty as real
    ensures AutoBuyQty(cfg, s, price) == 0
  {
  }

  /** The policy's part of the invested amount, for a first entry or an add-on. */
  function PlannedAmount(s: Session): real {
    var meta := TradeMeta.StrategyMeta(s.strategyId, s.variant);
    s.investmentAmount as real * (if s.holdingQty > 0 then meta.addOnBuyRatioPct else meta.initialBuyRatioPct) / 100.0
  }

  lemma PlannedIsTraded(s: Session)
    ensures var left := s.investmentAmount as real - s.avgBuyPrice * s.holdingQty as real;
      TradeAmount(s) == MinReal(PlannedAmount(s), left)
  {
  }

  /** Any other session asks for as many shares as its planned amount and what is
      left of the invested amount both pay for, unless a first entry is sized by
      risk. */
  lemma AutoBuyIsMost(cfg: Config, s: Session, price: real)
    requires price > 0.0 && !NoAddOn(s) && s.investmentAmount as real > s.avgBuyPrice * s.holdingQty as real
    requires !cfg.riskSizing || s.holdingQty > 0 || s.stopLossPct >= 0.0
    ensures MostOf(AutoBuyQty(cfg, s, price), price,
                   MinReal(PlannedAmount(s), s.investmentAmount as real - s.avgBuyPrice * s.holdingQty as real))
  {
    PlannedIsTraded(s);
    FloorIsMost(TradeAmount(s), price);
  }

  /** As many as lose no more than the risk budget at the stop, each its `loss`, and
      cost no more than the cap; none if that is not one. */
  predicate SizedByRisk(qty: int, loss: real, riskBudget: real, price: real, cap: real) {
    if qty > 0 then MostOfBoth(qty, loss, riskBudget, price, cap)
    else qty == 0 && !(loss <= riskBudget && price <= cap)
  }

  lemma RiskBasedQtyIsMost(equity: real, price: real, stopLossPct: real, riskPct: real, cap: real)
    requires equity > 0.0 && price > 0.0 && stopLossPct < 0.0
    ensures var qty := RiskBasedQty(equity, price, stopLossPct, riskPct, cap);
      qty.Some? && SizedByRisk(qty.value, price * (-stopLossPct / 100.0), equity * (riskPct / 100.0), price, cap)
  {
    var risk, loss := equity * (riskPct / 100.0), price * (AbsReal(stopLossPct) / 100.0);
    ShareRiskIsPositive(price, stopLossPct);
    RiskBasedQtyIff(equity, price, stopLossPct, riskPct, cap);
    LeastFloorIsMost(risk, loss, cap, price);
  }

  /** So it is for a first entry sized by risk. */
  lemma RiskSizedIsMost(cfg: Config, s: Session, price: real)
    requires price > 0.0 && cfg.riskSizing && s.holdingQty == 0 && s.avgBuyPrice == 0.0
    requires s.investmentAmount > 0 && s.stopLossPct < 0.0
    ensures var equity := s.investmentAmount as real;
      SizedByRisk(AutoBuyQty(cfg, s, price), price * (-s.stopLossPct / 100.0), equity * (cfg.riskPct / 100.0),
                  price, equity)
  {
    RiskBasedQtyIsMost(s.investmentAmount as real, price, s.stopLossPct, cfg.riskPct, s.investmentAmount as real);
    FlatRiskSized(cfg, s, price);
  }

  // ----- the service calls, on values -----

  /** Shares the broker allows; None when the inquiry fails. */
  function WithinBroker(requested: int, buyable: Option<int>): int {
    if buyable.Some? then MinInt(requested, buyable.value) else 0
  }

  function AutoBuy(cfg: Config, sid: int, s: Session, orders: seq<Order>, price: real,
                   deferred: bool, lookupFails: bool, buyable: Option<int>, reply: Reply): seq<Order> {
    if deferred || lookupFails || HasOpenOrder(orders, s.user, s.stock) || price <= 0.0 then orders
    else
      var requested := AutoBuyQty(cfg, s, price);
      if requested <= 0 || WithinBroker(requested, buyable) <= 0 then orders
      else PlaceOrder(orders, s.user, s.stock, Buy, Limit, WithinBroker(requested, buyable), price,
                      Meta(sid, false, None), reply).0
  }

  /** An automatic buy that writes a row writes one limit buy of at most the
      quantity it asked for. */
  lemma AutoBuyRow(cfg: Config, sid: int, s: Session, orders: seq<Order>, price: real,
                   deferred: bool, lookupFails: bool, buyable: Option<int>, reply: Reply)
    requires AutoBuy(cfg, sid, s, orders, price, deferred, lookupFails, buyable, reply) != orders
    ensures price > 0.0
    ensures var qty := WithinBroker(AutoBuyQty(cfg, s, price), buyable);
      && 0 < qty <= AutoBuyQty(cfg, s, price)
      && AutoBuy(cfg, sid, s, orders, price, deferred, lookupFails, buyable, reply)
         == orders + [NewRow(s.user, s.stock, Buy, Limit, qty, price, Meta(sid, false, None), reply)]
  {
  }

  function ImmediateBuyQty(cfg: Config, s: Session, price: real): int
    requires price > 0.0
  {
    var amount := s.investmentAmount as real * (Policy(s).initialBuyRatioPct / 100.0);
    BuyQuantity(cfg, s, price, amount, amount, false)
  }

  function ImmediateBuy(cfg: Config, sid: int, s: Session, orders: seq<Order>, lastPrice: Option<real>,
                        lookupFails: bool, buyable: Option<int>, reply: Reply): seq<Order> {
    if lookupFails || HasOpenOrder(orders, s.user, s.stock) || lastPrice.None? || lastPrice.value <= 0.0 then orders
    else
      var requested := ImmediateBuyQty(cfg, s, lastPrice.value);
      if requested <= 0 || WithinBroker(requested, buyable) <= 0 then orders
      else PlaceOrder(orders, s.user, s.stock, Buy, Market, WithinBroker(requested, buyable), 0.0,
                      Meta(sid, false, None), reply).0
  }

  lemma EntryIsMost(cfg: Config, s: Session, price: real, part: real)
    requires price > 0.0
    ensures var equity, qty := s.investmentAmount as real, BuyQuantity(cfg, s, price, part, part, false);
      if cfg.riskSizing && s.investmentAmount > 0 && s.stopLossPct < 0.0
      then SizedByRisk(qty, price * (-s.stopLossPct / 100.0), equity * (cfg.riskPct / 100.0), price, part)
      else MostOf(qty, price, part)
  {
    if cfg.riskSizing && s.investmentAmount > 0 && s.stopLossPct < 0.0 {
      RiskBasedQtyIsMost(s.investmentAmount as real, price, s.stopLossPct, cfg.riskPct, part);
    } else {
      FloorIsMost(part, price);
    }
  }

  /** A buy at once asks for as many shares as the first part of the invested amount
      pays for; sized by risk if that applies, with this part as the cap. */
  lemma ImmediateBuyIsMost(cfg: Config, s: Session, price: real, part: real)
    requires price > 0.0
    requires part == s.investmentAmount as real
                     * (TradeMeta.StrategyMeta(s.strategyId, s.variant).initialBuyRatioPct / 100.0)
    ensures var equity, qty := s.investmentAmount as real, ImmediateBuyQty(cfg, s, price);
      if cfg.riskSizing && s.investmentAmount > 0 && s.stopLossPct < 0.0
      then SizedByRisk(qty, price * (-s.stopLossPct / 100.0), equity * (cfg.riskPct / 100.0), price, part)
      else MostOf(qty, price, part)
  {
    EntryIsMost(cfg, s, price, part);
  }

  /** An open row of this user and stock bars another order. */
  ghost predicate Barred(orders: seq<Order>, s: Session, lookupFails: bool) {
    lookupFails
    || exists i :: 0 <= i < |orders| && (orders[i].status == Accepted || orders[i].status == Partial)
                   && orders[i].user == s.user && orders[i].stock == s.stock
  }

  /** The history gains one row of these terms, unless it cannot be sent or the write
      fails. */
  predicate Gains(orders: seq<Order>, orders': seq<Order>, s: Session, side: Side, division: Division, qty: int,
                  price: real, meta: Meta, reply: Reply) {
    if reply.NotSent? || !reply.saved then orders' == orders
    else
      && |orders'| == |orders| + 1 && orders'[..|orders|] == orders
      && var o := orders'[|orders|];
         && o.user == s.user && o.stock == s.stock && o.side == side && o.division == division
         && o.quantity == qty && o.price == price && o.meta == meta && o.executedQuantity == 0
         && o.status == (if reply.Taken? then Accepted else Failed)
  }

  /** Exactly when an automatic buy is sent: not put off, not barred, at a price, for
      what it asks for and the broker allows if that is a share. */
  lemma AutoBuySendsIff(cfg: Config, sid: int, s: Session, orders: seq<Order>, price: real,
                        deferred: bool, lookupFails: bool, buyable: Option<int>, reply: Reply)
    ensures var orders' := AutoBuy(cfg, sid, s, orders, price, deferred, lookupFails, buyable, reply);
      if !deferred && !Barred(orders, s, lookupFails) && price > 0.0
         && AutoBuyQty(cfg, s, price) > 0 && buyable.Some? && buyable.value > 0
      then Gains(orders, orders', s, Buy, Limit, MinInt(AutoBuyQty(cfg, s, price), buyable.value), price,
                 Meta(sid, false, None), reply)
      else orders' == orders
  {
    assert Barred(orders, s, lookupFails) <==> lookupFails || HasOpenOrder(orders, s.user, s.stock);
  }

  /** Exactly when a buy at once is sent, at the market. */
  lemma ImmediateBuySendsIff(cfg: Config, sid: int, s: Session, orders: seq<Order>, lastPrice: Option<real>,
                             lookupFails: bool, buyable: Option<int>, reply: Reply)
    ensures var orders' := ImmediateBuy(cfg, sid, s, orders, lastPrice, lookupFails, buyable, reply);
      if !Barred(orders, s, lookupFails) && lastPrice.Some? && lastPrice.value > 0.0
         && ImmediateBuyQty(cfg, s, lastPrice.value) > 0 && buyable.Some? && buyable.value > 0
      then Gains(orders, orders', s, Buy, Market, MinInt(ImmediateBuyQty(cfg, s, lastPrice.value), buyable.value), 0.0,
                 Meta(sid, false, None), reply)
      else orders' == orders
  {
    assert Barred(orders, s, lookupFails) <==> lookupFails || HasOpenOrder(orders, s.user, s.stock);
  }

  function SellQty(s: Session, opts: SellOptions): int {
    MinInt(if opts.sellQty.Some? then opts.sellQty.value else s.holdingQty, s.holdingQty)
  }

  function PausesAfter(s: Session, opts: SellOptions): bool {
    SellQty(s, opts) >= s.holdingQty || opts.pauseAfterSell != Some(false)
  }

  function SellDivision(opts: SellOptions): Division {
    if opts.division.Some? then opts.division.value else Market
  }

  function SellPrice(opts: SellOptions, price: real): real {
    if SellDivision(opts) == Market then 0.0
    else if opts.orderPrice.Some? then opts.orderPrice.value else price
  }

  /** Runs to its end without interruption, so the in-flight lock it takes is
      free again; SellLock treats the interleaved form. */
  function AutoSell(sid: int, s: Session, orders: seq<Order>, price: real, opts: SellOptions,
                    lookupFails: bool, reply: Reply): (Session, seq<Order>) {
    if s.holdingQty <= 0 || s.autoPausePending || SellQty(s, opts) <= 0 then (s, orders)
    else if lookupFails || HasOpenOrder(orders, s.user, s.stock) then (s, orders)
    else
      var (orders', taken) := PlaceOrder(orders, s.user, s.stock, Sell, SellDivision(opts), SellQty(s, opts),
        SellPrice(opts, price), Meta(sid, PausesAfter(s, opts), opts.stage), reply);
      (if taken && PausesAfter(s, opts) then s.(autoPausePending := true) else s, orders')
  }

  /** Exactly when an automatic sell is sent: for what is asked and held, all of it by
      default, at the market unless a limit is asked for; and what becomes of the
      pending flag: a sell of everything raises it, one of a part unless it says not to,
      each when the broker takes it. */
  lemma AutoSellSendsIff(sid: int, s: Session, orders: seq<Order>, price: real, opts: SellOptions,
                         lookupFails: bool, reply: Reply)
    ensures var (s', orders') := AutoSell(sid, s, orders, price, opts, lookupFails, reply);
      var qty := if opts.sellQty.Some? && opts.sellQty.value < s.holdingQty then opts.sellQty.value else s.holdingQty;
      var pauses := qty == s.holdingQty || opts.pauseAfterSell != Some(false);
      var limit := if opts.orderPrice.Some? then opts.orderPrice.value else price;
      if qty > 0 && !s.autoPausePending && !Barred(orders, s, lookupFails)
         && (opts.division == Some(Limit) ==> limit > 0.0)
      then
        && s' == s.(autoPausePending := reply.Taken? && pauses)
        && Gains(orders, orders', s, Sell, if opts.division == Some(Limit) then Limit else Market, qty,
                 if opts.division == Some(Limit) then limit else 0.0, Meta(sid, pauses, opts.stage), reply)
      else s' == s && orders' == orders
  {
    assert Barred(orders, s, lookupFails) <==> lookupFails || HasOpenOrder(orders, s.user, s.stock);
  }

  datatype Conflict = SessionStopped | NoHoldings | ExceedHoldings | OpenOrderExists | NoBuyableQuantity
                    | BadRequest | OrderFailed

  /** Why an order by hand may not be sent at all. */
  function ManualConflict(s: Session, side: Side, qty: int, blocked: bool): Option<Conflict> {
    if s.life == Stopped then Some(SessionStopped)
    else if side == Sell && s.holdingQty <= 0 then Some(NoHoldings)
    else if side == Sell && qty > s.holdingQty then Some(ExceedHoldings)
    else if blocked then Some(OpenOrderExists)
    else None
  }

  function ManualPrice(division: Division, limitPrice: Option<real>): real {
    if division == Market || limitPrice.None? then 0.0 else limitPrice.value
  }

  /** The part of an order by hand after its checks. */
  function ManualSubmission(sid: int, s: Session, orders: seq<Order>, side: Side, division: Division, qty: int,
                            price: real, buyable: Option<int>, reply: Reply): (seq<Order>, Option<Conflict>)
  {
    var shares := if side == Buy then WithinBroker(qty, buyable) else qty;
    if side == Buy && shares <= 0 then (orders, Some(NoBuyableQuantity))
    else if !ValidRequest(division, shares, price) then (orders, Some(BadRequest))
    else
      var (orders', taken) := PlaceOrder(orders, s.user, s.stock, side, division, shares, price,
                                         Meta(sid, false, None), reply);
      (orders', if taken then None else Some(OrderFailed))
  }

  function ManualOrder(sid: int, s: Session, orders: seq<Order>, side: Side, division: Division, qty: int,
                       limitPrice: Option<real>, lookupFails: bool, buyable: Option<int>, reply: Reply)
    : (seq<Order>, Option<Conflict>)
  {
    var conflict := ManualConflict(s, side, qty, lookupFails || HasOpenOrder(orders, s.user, s.stock));
    if conflict.Some? then (orders, conflict)
    else ManualSubmission(sid, s, orders, side, division, qty, ManualPrice(division, limitPrice), buyable, reply)
  }

  /** What comes of an order by hand, in the order of its checks: the first that fails
      names the error, and the history then stays as it is. */
  lemma ManualOrderIs(sid: int, s: Session, orders: seq<Order>, side: Side, division: Division, qty: int,
                      limitPrice: Option<real>, lookupFails: bool, buyable: Option<int>, reply: Reply)
    ensures var (orders', error) :=
        ManualOrder(sid, s, orders, side, division, qty, limitPrice, lookupFails, buyable, reply);
      var shares := if side == Sell then qty else if buyable.None? then 0 else MinInt(qty, buyable.value);
      var price := if division == Limit && limitPrice.Some? then limitPrice.value else 0.0;
      if s.life == Stopped then error == Some(SessionStopped) && orders' == orders
      else if side == Sell && s.holdingQty <= 0 then error == Some(NoHoldings) && orders' == orders
      else if side == Sell && s.holdingQty < qty then error == Some(ExceedHoldings) && orders' == orders
      else if Barred(orders, s, lookupFails) then error == Some(OpenOrderExists) && orders' == orders
      else if side == Buy && shares <= 0 then error == Some(NoBuyableQuantity) && orders' == orders
      else if shares <= 0 || price < 0.0 || (division == Limit && price == 0.0)
      then error == Some(BadRequest) && orders' == orders
      else
        && error == (if reply.Taken? then None else Some(OrderFailed))
        && Gains(orders, orders', s, side, division, shares, price, Meta(sid, false, None), reply)
  {
    assert Barred(orders, s, lookupFails) <==> lookupFails || HasOpenOrder(orders, s.user, s.stock);
  }

  /** The fill a recorded execution of a row is for its session. */
  function FillOf(o: Order, r: Recorded, latestPrice: real, now: int): Fill {
    Fill(o.side, r.appliedQty, r.executionPrice, o.price, r.previousExecutedQty == 0, o.meta.stage, latestPrice, now)
  }
}
