/** The position of one trading session: what a confirmed fill and an evaluated
    price do to it, and what holds over any run of both. */
module Position {
  import opened Numbers
  import opened OrderLedger

  datatype Life = Active | Paused | Stopped

  datatype Session = Session(
    user: int, stock: string, strategyId: string, variant: Option<string>,
    investmentAmount: int, stopLossPct: real, takeProfitPct: real, addOnAllowed: bool,
    life: Life, autoPausePending: bool,
    addOnBuyCount: int, realizedPnl: int, unrealizedPnl: int, holdingQty: int, avgBuyPrice: real,
    highestPriceAfterEntry: real, scaleOutStage: int, initialQty: int, totalBuys: int, totalSells: int,
    enteredAt: Option<int>)

  /** One recorded execution as the session sees it. `first` says that the order
      had no fill before; a price of 0 is missing, as is a `latestPrice` of 0. */
  datatype Fill = Fill(
    side: Side, qty: int, price: real, orderPrice: real, first: bool, stage: Option<int>,
    latestPrice: real, now: int)

  /** The execution price, else the order price, else the average. */
  function ResolvedPrice(s: Session, f: Fill): real {
    OrElse(OrElse(f.price, f.orderPrice), s.avgBuyPrice)
  }

  /** A fill that resolves to no quantity or no price is put aside. */
  predicate Booked(s: Session, f: Fill) { f.qty > 0 && ResolvedPrice(s, f) > 0.0 }

  /** Unrealized profit at the latest price; without one it keeps its value. */
  function Marked(before: int, latestPrice: real, avg: real, holding: int): int {
    if latestPrice != 0.0 then Round((latestPrice - avg) * holding as real) else before
  }

  /** The average after adding `qty` shares at `price`. */
  function NewAverage(avg: real, holding: int, price: real, qty: int): real {
    if holding + qty > 0 then (avg * holding as real + price * qty as real) / (holding + qty) as real else 0.0
  }

  /** A session whose position was raised: every buy starts the scale-out stages
      anew from the quantity now held. */
  function Raised(s: Session, holding: int, avg: real, peak: real, enteredAt: Option<int>,
                  addOns: int, buys: int, latestPrice: real): Session {
    s.(holdingQty := holding, avgBuyPrice := avg, highestPriceAfterEntry := peak, enteredAt := enteredAt,
       addOnBuyCount := addOns, totalBuys := buys,
       initialQty := if holding > 0 then holding else s.initialQty,
       scaleOutStage := if holding > 0 then 0 else s.scaleOutStage,
       unrealizedPnl := Marked(s.unrealizedPnl, latestPrice, avg, holding))
  }

  function BookBuy(s: Session, f: Fill): Session {
    var price := ResolvedPrice(s, f);
    var wasFlat := s.holdingQty <= 0;
    var holding := s.holdingQty + f.qty;
    var entering := wasFlat && holding > 0;
    Raised(s, holding,
      NewAverage(s.avgBuyPrice, s.holdingQty, price, f.qty),
      if wasFlat then price else MaxReal(s.highestPriceAfterEntry, price),
      if entering then Some(f.now) else s.enteredAt,
      if !f.first then s.addOnBuyCount else if entering then 0 else s.addOnBuyCount + 1,
      if f.first then s.totalBuys + 1 else s.totalBuys,
      f.latestPrice)
  }

  /** A session whose position was lowered; at zero the whole cycle is over. */
  function Lowered(s: Session, realized: int, holding: int, sells: int, stage: int, latestPrice: real): Session {
    var t := s.(realizedPnl := realized, totalSells := sells);
    if holding <= 0 then
      t.(holdingQty := 0, avgBuyPrice := 0.0, unrealizedPnl := 0, enteredAt := None, addOnBuyCount := 0,
         highestPriceAfterEntry := 0.0, scaleOutStage := 0, initialQty := 0)
    else
      t.(holdingQty := holding, scaleOutStage := stage,
         unrealizedPnl := Marked(s.unrealizedPnl, latestPrice, s.avgBuyPrice, holding))
  }

  /** At most the shares that are held leave the position. */
  function SoldQty(s: Session, f: Fill): int { MinInt(f.qty, s.holdingQty) }

  /** The profit of selling `qty` shares bought at an average, in whole won. */
  function Gain(avg: real, price: real, qty: int): int { Round((price - avg) * qty as real) }

  function BookSell(s: Session, f: Fill): Session {
    var sold := SoldQty(s, f);
    Lowered(s,
      s.realizedPnl + Gain(s.avgBuyPrice, ResolvedPrice(s, f), sold),
      MaxInt(0, s.holdingQty - sold),
      if f.first then s.totalSells + 1 else s.totalSells,
      if f.first && f.stage.Some? then f.stage.value else s.scaleOutStage,
      f.latestPrice)
  }

  function ApplyFill(s: Session, f: Fill): Session {
    if !Booked(s, f) then s
    else match f.side case Buy => BookBuy(s, f) case Sell => BookSell(s, f)
  }

  /** A price is looked at only while there is a position to protect. */
  predicate Evaluates(s: Session) { !s.autoPausePending && s.holdingQty > 0 && s.avgBuyPrice > 0.0 }

  function UpdateHighest(s: Session, price: real): Session {
    if price <= 0.0 then s
    else if price > OrElse(s.highestPriceAfterEntry, s.avgBuyPrice) then s.(highestPriceAfterEntry := price)
    else if s.highestPriceAfterEntry == 0.0 && s.avgBuyPrice > 0.0 then s.(highestPriceAfterEntry := s.avgBuyPrice)
    else s
  }

  datatype Move = Filled(fill: Fill) | Evaluated(price: real) | PauseFlag(pending: bool)

  function Step(s: Session, m: Move): Session {
    match m
    case Filled(f) => ApplyFill(s, f)
    case Evaluated(price) => if Evaluates(s) then UpdateHighest(s, price) else s
    case PauseFlag(pending) => s.(autoPausePending := pending)
  }

  function Run(s: Session, ms: seq<Move>): Session {
    if |ms| == 0 then s else Step(Run(s, ms[..|ms| - 1]), ms[|ms| - 1])
  }

  /** No shares and no average go together. */
  predicate Sound(s: Session) {
    && 0 <= s.holdingQty
    && (s.holdingQty > 0 ==> s.avgBuyPrice > 0.0 && s.highestPriceAfterEntry > 0.0)
    && (s.holdingQty == 0 ==> s.avgBuyPrice == 0.0 && s.highestPriceAfterEntry == 0.0)
  }

  lemma PositiveProduct(a: real, b: real)
    requires a > 0.0 && b > 0.0
    ensures a * b > 0.0
  {
  }

  lemma SumOfParts(x: real, m: real, k: real, n: real)
    requires n == m + k
    ensures x * n == x * m + x * k
  {
  }

  /** What is larger than two numbers in both its parts is larger than their mean. */
  lemma MeanBelow(hi: real, x: real, m: real, y: real, k: real, a: real, n: real)
    requires x <= hi && y <= hi && m > 0.0 && k > 0.0 && n == m + k && a * n == x * m + y * k
    ensures a <= hi
  {
    if a > hi {
      TimesOrder(x, hi, m);
      TimesOrder(y, hi, k);
      SumOfParts(hi, m, k, n);
      TimesOrder(a, hi, n);
    }
  }

  /** Cost is conserved by averaging, and the average stays between the old one
      and the price paid. */
  lemma AverageFacts(avg: real, holding: int, price: real, qty: int)
    requires 0 <= holding && 0 < qty && price > 0.0
    requires if holding > 0 then avg > 0.0 else avg == 0.0
    ensures var a := NewAverage(avg, holding, price, qty);
      && a * (holding + qty) as real == avg * holding as real + price * qty as real
      && a > 0.0
      && (holding == 0 ==> a == price)
      && (holding > 0 ==> MinReal(avg, price) <= a <= MaxReal(avg, price))
  {
    var n := (holding + qty) as real;
    var cost := avg * holding as real + price * qty as real;
    var a := cost / n;
    DividedBack(cost, n);
    if holding == 0 {
      assert cost == price * n;
      assert a == price;
    } else {
      var lo, hi := MinReal(avg, price), MaxReal(avg, price);
      MeanBelow(hi, avg, holding as real, price, qty as real, a, n);
      MeanBelow(-lo, -avg, holding as real, -price, qty as real, -a, n);
    }
  }

  lemma StepKeepsSound(s: Session, m: Move)
    requires Sound(s)
    ensures Sound(Step(s, m))
  {
    match m
    case Filled(f) =>
      if Booked(s, f) && f.side == Buy {
        AverageFacts(s.avgBuyPrice, s.holdingQty, ResolvedPrice(s, f), f.qty);
      }
    case Evaluated(price) =>
    case PauseFlag(pending) =>
  }

  lemma {:induction false} RunKeepsSound(s: Session, ms: seq<Move>)
    requires Sound(s)
    ensures Sound(Run(s, ms))
  {
    if |ms| > 0 {
      RunKeepsSound(s, ms[..|ms| - 1]);
      StepKeepsSound(Run(s, ms[..|ms| - 1]), ms[|ms| - 1]);
    }
  }

  // ----- cash -----

  /** The price a fill carries, or that of its order, or what the shares cost. */
  function PaidPrice(f: Fill, avg: real): real {
    if f.price != 0.0 then f.price else if f.orderPrice != 0.0 then f.orderPrice else avg
  }

  /** The move is a fill of this side that counts: it has shares and a price. */
  predicate IsFill(s: Session, m: Move, side: Side) {
    m.Filled? && m.fill.side == side && m.fill.qty > 0 && PaidPrice(m.fill, s.avgBuyPrice) > 0.0
  }

  /** What one move takes in by selling, pays for buying, and how many sells it books. */
  function SaleProceeds(s: Session, m: Move): real {
    if IsFill(s, m, Sell)
    then PaidPrice(m.fill, s.avgBuyPrice) * (if m.fill.qty < s.holdingQty then m.fill.qty else s.holdingQty) as real
    else 0.0
  }

  function PurchaseCost(s: Session, m: Move): real {
    if IsFill(s, m, Buy) then PaidPrice(m.fill, s.avgBuyPrice) * m.fill.qty as real else 0.0
  }

  function SellFills(s: Session, m: Move): int { if IsFill(s, m, Sell) then 1 else 0 }

  /** Proceeds minus cost, over a run. */
  function NetCash(s: Session, ms: seq<Move>): real {
    if |ms| == 0 then 0.0
    else
      var t := Run(s, ms[..|ms| - 1]);
      NetCash(s, ms[..|ms| - 1]) + SaleProceeds(t, ms[|ms| - 1]) - PurchaseCost(t, ms[|ms| - 1])
  }

  function SellCount(s: Session, ms: seq<Move>): nat {
    if |ms| == 0 then 0
    else SellCount(s, ms[..|ms| - 1]) + SellFills(Run(s, ms[..|ms| - 1]), ms[|ms| - 1])
  }

  function BookValue(s: Session): real { s.avgBuyPrice * s.holdingQty as real }

  /** What selling `sold` shares of a holding does to profit and book value. */
  lemma SaleFacts(avg: real, holding: int, price: real, sold: int)
    requires 0 <= sold <= holding
    ensures (price - avg) * sold as real == price * sold as real - avg * sold as real
    ensures avg * (holding - sold) as real == avg * holding as real - avg * sold as real
  {
    assert (holding - sold) as real == holding as real - sold as real;
  }

  lemma BuyStepCash(s: Session, f: Fill)
    requires Sound(s) && Booked(s, f)
    ensures BookValue(BookBuy(s, f)) == BookValue(s) + ResolvedPrice(s, f) * f.qty as real
    ensures BookBuy(s, f).realizedPnl == s.realizedPnl
  {
    AverageFacts(s.avgBuyPrice, s.holdingQty, ResolvedPrice(s, f), f.qty);
  }

  lemma SellStepCash(s: Session, f: Fill)
    requires Sound(s) && Booked(s, f)
    ensures var t, sold := BookSell(s, f), SoldQty(s, f);
      AbsReal((t.realizedPnl - s.realizedPnl) as real
              - (ResolvedPrice(s, f) * sold as real + BookValue(t) - BookValue(s))) <= 0.5
  {
    var sold, price, t := SoldQty(s, f), ResolvedPrice(s, f), BookSell(s, f);
    SaleFacts(s.avgBuyPrice, s.holdingQty, price, sold);
    assert t.realizedPnl - s.realizedPnl == Gain(s.avgBuyPrice, price, sold);
    assert t.holdingQty == s.holdingQty - sold;
    if t.holdingQty > 0 {
      assert t.avgBuyPrice == s.avgBuyPrice;
    } else {
      assert BookValue(t) == 0.0;
      assert sold == s.holdingQty;
    }
    assert BookValue(t) == BookValue(s) - s.avgBuyPrice * sold as real;
  }

  /** How far realized profit moves away from net cash plus book value. */
  function CashGap(s: Session, m: Move, t: Session): real {
    (t.realizedPnl - s.realizedPnl) as real
    - (SaleProceeds(s, m) - PurchaseCost(s, m) + BookValue(t) - BookValue(s))
  }

  lemma BuyGap(s: Session, f: Fill)
    requires Sound(s) && Booked(s, f) && f.side == Buy
    ensures CashGap(s, Filled(f), BookBuy(s, f)) == 0.0
  {
    BuyStepCash(s, f);
  }

  lemma SellGap(s: Session, f: Fill)
    requires Sound(s) && Booked(s, f) && f.side == Sell
    ensures AbsReal(CashGap(s, Filled(f), BookSell(s, f))) <= 0.5
  {
    SellStepCash(s, f);
  }

  /** One move changes realized profit by its cash plus the change of the book
      value, up to half a won when it sells. */
  lemma CashStep(s: Session, m: Move)
    requires Sound(s)
    ensures AbsReal(CashGap(s, m, Step(s, m))) <= if SellFills(s, m) == 1 then 0.5 else 0.0
  {
    match m
    case Filled(f) =>
      if Booked(s, f) {
        match f.side
        case Buy => BuyGap(s, f);
        case Sell => SellGap(s, f);
      }
    case Evaluated(price) =>
    case PauseFlag(pending) =>
  }

  /** Over any run, oversized sells included: realized profit is net cash plus
      the change of the book value, within half a won per sell fill. */
  lemma {:induction false} CashIdentity(s: Session, ms: seq<Move>)
    requires Sound(s)
    ensures var t := Run(s, ms);
      AbsReal((t.realizedPnl - s.realizedPnl) as real - (NetCash(s, ms) + BookValue(t) - BookValue(s)))
      <= 0.5 * SellCount(s, ms) as real
  {
    if |ms| > 0 {
      var init, last := ms[..|ms| - 1], ms[|ms| - 1];
      CashIdentity(s, init);
      RunKeepsSound(s, init);
      CashStep(Run(s, init), last);
    }
  }

  // ----- average and peak of the current cycle -----

  /** The prices paid since the session was last flat. */
  function CycleBuys(s: Session, ms: seq<Move>): seq<real> {
    if |ms| == 0 then []
    else
      var t, m := Run(s, ms[..|ms| - 1]), ms[|ms| - 1];
      if Step(t, m).holdingQty == 0 then []
      else CycleBuys(s, ms[..|ms| - 1])
           + (if IsFill(t, m, Buy) then [PaidPrice(m.fill, t.avgBuyPrice)] else [])
  }

  /** The prices evaluated since the session was last flat, while no pause was
      pending. */
  function CycleTicks(s: Session, ms: seq<Move>): seq<real> {
    if |ms| == 0 then []
    else
      var t, m := Run(s, ms[..|ms| - 1]), ms[|ms| - 1];
      if Step(t, m).holdingQty == 0 then []
      else CycleTicks(s, ms[..|ms| - 1]) + (if m.Evaluated? && !t.autoPausePending then [m.price] else [])
  }

  ghost predicate IsMax(x: real, a: seq<real>, b: seq<real>) {
    && (forall v :: v in a || v in b ==> v <= x)
    && (x in a || x in b)
  }

  ghost predicate WithinPrices(x: real, a: seq<real>) {
    && (exists v :: v in a && v <= x)
    && (exists v :: v in a && x <= v)
  }

  lemma MeanStaysWithin(x: real, y: real, a: seq<real>, p: real)
    requires WithinPrices(x, a) && MinReal(x, p) <= y <= MaxReal(x, p)
    ensures WithinPrices(y, a + [p])
  {
    var lo :| lo in a && lo <= x;
    var hi :| hi in a && x <= hi;
    assert p in a + [p] && lo in a + [p] && hi in a + [p];
  }

  /** While shares are held, the average lies between the lowest and the highest
      price paid in this cycle, and the peak is the largest price paid or
      evaluated in it; a flat session has neither. */
  ghost predicate TracksCycle(s: Session, buys: seq<real>, ticks: seq<real>) {
    if s.holdingQty > 0
    then WithinPrices(s.avgBuyPrice, buys) && IsMax(s.highestPriceAfterEntry, buys, ticks)
    else s.avgBuyPrice == 0.0 && s.highestPriceAfterEntry == 0.0 && buys == [] && ticks == []
  }

  lemma CycleStep(s: Session, m: Move, buys: seq<real>, ticks: seq<real>)
    requires Sound(s) && TracksCycle(s, buys, ticks)
    ensures var t := Step(s, m);
      TracksCycle(t,
        if t.holdingQty == 0 then [] else
          buys + (if IsFill(s, m, Buy) then [PaidPrice(m.fill, s.avgBuyPrice)] else []),
        if t.holdingQty == 0 then [] else ticks + (if m.Evaluated? && !s.autoPausePending then [m.price] else []))
  {
    var t := Step(s, m);
    StepKeepsSound(s, m);
    assert buys + [] == buys && ticks + [] == ticks;
    match m
    case Filled(f) =>
      if Booked(s, f) && f.side == Buy {
        var p := ResolvedPrice(s, f);
        AverageFacts(s.avgBuyPrice, s.holdingQty, p, f.qty);
        assert p in buys + [p];
        if s.holdingQty > 0 {
          MeanStaysWithin(s.avgBuyPrice, t.avgBuyPrice, buys, p);
          assert forall v :: v in buys ==> v in buys + [p];
        }
      }
    case Evaluated(price) =>
      if Evaluates(s) {
        assert price in ticks + [price];
        assert forall v :: v in ticks ==> v in ticks + [price];
      }
    case PauseFlag(pending) =>
  }

  lemma {:induction false} CycleIsTracked(s: Session, ms: seq<Move>)
    requires Sound(s) && s.holdingQty == 0
    ensures Sound(Run(s, ms)) && TracksCycle(Run(s, ms), CycleBuys(s, ms), CycleTicks(s, ms))
  {
    if |ms| > 0 {
      var init := ms[..|ms| - 1];
      CycleIsTracked(s, init);
      CycleStep(Run(s, init), ms[|ms| - 1], CycleBuys(s, init), CycleTicks(s, init));
      StepKeepsSound(Run(s, init), ms[|ms| - 1]);
    }
  }

  lemma {:induction false} PeakCoversAverage(s: Session, ms: seq<Move>)
    requires Sound(s) && s.holdingQty == 0
    ensures Run(s, ms).avgBuyPrice <= Run(s, ms).highestPriceAfterEntry
  {
    CycleIsTracked(s, ms);
  }

  // ----- a fill that arrives in two parts -----

  lemma AverageOfParts(avg: real, holding: int, price: real, q1: int, q2: int)
    requires 0 <= holding && 0 < q1 && 0 < q2 && price > 0.0
    requires if holding > 0 then avg > 0.0 else avg == 0.0
    ensures NewAverage(NewAverage(avg, holding, price, q1), holding + q1, price, q2)
         == NewAverage(avg, holding, price, q1 + q2)
  {
    AverageFacts(avg, holding, price, q1);
    assert (q1 + q2) as real == q1 as real + q2 as real;
    assert price * q1 as real + price * q2 as real == price * (q1 + q2) as real;
  }

  lemma RaisedTwice(s: Session, h1: int, a1: real, p1: real, e1: Option<int>, n1: int, b1: int,
                    h2: int, a2: real, p2: real, e2: Option<int>, n2: int, b2: int, latest: real)
    requires h1 > 0 && h2 > 0
    ensures Raised(Raised(s, h1, a1, p1, e1, n1, b1, latest), h2, a2, p2, e2, n2, b2, latest)
         == Raised(s, h2, a2, p2, e2, n2, b2, latest)
  {
  }

  /** A buy that fills in two parts at one price leaves the session exactly as
      if it had filled at once. */
  lemma SplitBuyIsWhole(s: Session, f: Fill, q1: int, q2: int)
    requires Sound(s) && f.side == Buy && f.price > 0.0 && q1 > 0 && q2 > 0 && f.qty == q1 + q2
    ensures ApplyFill(s, f) == ApplyFill(ApplyFill(s, f.(qty := q1)), f.(qty := q2, first := false))
  {
    var t := BookBuy(s, f.(qty := q1));
    var a1, a2 := t.avgBuyPrice, NewAverage(s.avgBuyPrice, s.holdingQty, f.price, f.qty);
    AverageOfParts(s.avgBuyPrice, s.holdingQty, f.price, q1, q2);
    assert NewAverage(a1, t.holdingQty, f.price, q2) == a2;
    var p, e := t.highestPriceAfterEntry, t.enteredAt;
    assert MaxReal(p, f.price) == p;
    RaisedTwice(s, t.holdingQty, a1, p, e, t.addOnBuyCount, t.totalBuys,
                s.holdingQty + f.qty, a2, p, e, t.addOnBuyCount, t.totalBuys, f.latestPrice);
  }

  lemma LoweredTwice(s: Session, r1: int, h1: int, n1: int, g1: int, r2: int, h2: int, n2: int, g2: int, latest: real)
    requires h1 > 0
    ensures Lowered(Lowered(s, r1, h1, n1, g1, latest), r2, h2, n2, g2, latest) == Lowered(s, r2, h2, n2, g2, latest)
  {
  }

  lemma RoundOfParts(x: real, y: real)
    ensures AbsInt(Round(x) + Round(y) - Round(x + y)) <= 1
  {
    var d := Round(x) + Round(y) - Round(x + y);
    assert -1.5 < d as real < 1.5 || AbsInt(d) <= 1;
  }

  lemma LoweredProfit(s: Session, r: int, r': int, holding: int, sells: int, stage: int, latest: real)
    ensures Lowered(s, r, holding, sells, stage, latest)
         == Lowered(s, r', holding, sells, stage, latest).(realizedPnl := r)
  {
  }

  lemma GainOfParts(avg: real, price: real, q1: int, q2: int)
    ensures AbsInt(Gain(avg, price, q1) + Gain(avg, price, q2) - Gain(avg, price, q1 + q2)) <= 1
  {
    var gain := price - avg;
    assert (q1 + q2) as real == q1 as real + q2 as real;
    assert gain * (q1 + q2) as real == gain * q1 as real + gain * q2 as real;
    RoundOfParts(gain * q1 as real, gain * q2 as real);
  }

  lemma FittingSell(s: Session, f: Fill)
    requires f.side == Sell && f.price > 0.0 && 0 < f.qty <= s.holdingQty
    ensures ApplyFill(s, f) == Lowered(s, s.realizedPnl + Gain(s.avgBuyPrice, f.price, f.qty), s.holdingQty - f.qty,
      if f.first then s.totalSells + 1 else s.totalSells,
      if f.first && f.stage.Some? then f.stage.value else s.scaleOutStage, f.latestPrice)
  {
  }

  /** Selling on after a first part, seen from the session before both. */
  lemma SecondPart(s: Session, f: Fill, r: int, holding: int, sells: int, stage: int)
    requires f.side == Sell && f.price > 0.0 && 0 < f.qty <= holding && !f.first
    ensures ApplyFill(Lowered(s, r, holding, sells, stage, f.latestPrice), f)
         == Lowered(s, r + Gain(s.avgBuyPrice, f.price, f.qty), holding - f.qty, sells, stage, f.latestPrice)
  {
    var t := Lowered(s, r, holding, sells, stage, f.latestPrice);
    assert t.avgBuyPrice == s.avgBuyPrice && t.holdingQty == holding && t.realizedPnl == r;
    FittingSell(t, f);
    LoweredTwice(s, r, holding, sells, stage, r + Gain(s.avgBuyPrice, f.price, f.qty), holding - f.qty,
      sells, stage, f.latestPrice);
  }

  lemma SellInParts(s: Session, f: Fill, q1: int, q2: int)
    requires f.side == Sell && f.price > 0.0 && q1 > 0 && q2 > 0 && f.qty == q1 + q2 <= s.holdingQty
    ensures ApplyFill(ApplyFill(s, f.(qty := q1)), f.(qty := q2, first := false))
         == Lowered(s, s.realizedPnl + Gain(s.avgBuyPrice, f.price, q1) + Gain(s.avgBuyPrice, f.price, q2),
              s.holdingQty - f.qty,
              if f.first then s.totalSells + 1 else s.totalSells,
              if f.first && f.stage.Some? then f.stage.value else s.scaleOutStage, f.latestPrice)
  {
    FittingSell(s, f.(qty := q1));
    SecondPart(s, f.(qty := q2, first := false), s.realizedPnl + Gain(s.avgBuyPrice, f.price, q1), s.holdingQty - q1,
      if f.first then s.totalSells + 1 else s.totalSells,
      if f.first && f.stage.Some? then f.stage.value else s.scaleOutStage);
  }

  /** A sell in two parts at one price differs from one fill in the realized
      profit alone, by at most one won. */
  lemma SplitSellIsWhole(s: Session, f: Fill, q1: int, q2: int)
    requires Sound(s) && f.side == Sell && f.price > 0.0 && q1 > 0 && q2 > 0
    requires f.qty == q1 + q2 <= s.holdingQty
    ensures var whole, parts := ApplyFill(s, f), ApplyFill(ApplyFill(s, f.(qty := q1)), f.(qty := q2, first := false));
      && parts == whole.(realizedPnl := parts.realizedPnl)
      && AbsInt(parts.realizedPnl - whole.realizedPnl) <= 1
  {
    FittingSell(s, f);
    SellInParts(s, f, q1, q2);
    GainOfParts(s.avgBuyPrice, f.price, q1, q2);
    var whole := ApplyFill(s, f);
    LoweredProfit(s, s.realizedPnl + Gain(s.avgBuyPrice, f.price, q1) + Gain(s.avgBuyPrice, f.price, q2),
      whole.realizedPnl, s.holdingQty - f.qty, whole.totalSells,
      if f.first && f.stage.Some? then f.stage.value else s.scaleOutStage, f.latestPrice);
  }
}
