/** When a held position is sold: stop loss, profit targets, break-even and
    trailing stops, in the order the service looks at them. */
module ExitLadder {
  import opened Numbers
  import opened OrderLedger
  import opened Position
  import opened Trading
  import opened TradingDesk

  const MIN_LIMIT_ORDER_PRICE := 1
  const FIRST_TARGET_PCT := 2.0
  const FIRST_TARGET_SELL_PCT := 33.0
  const MIN_REMAINDER_QTY := 1
  const RUNNER_TAKE_PROFIT_PCT := 6.0

  datatype Reason = StopLoss | RunnerProfit | FirstTarget | TakeProfit | Breakeven | TrailingStop | HeldTooLong

  datatype Exit = Hold | Deferred(reason: Reason) | Leave(reason: Reason, opts: SellOptions)

  /** What else the decision depends on: whether scaling out is enabled, the entry
      is recent, the position is held too long, trading of the stock is
      interrupted, and stop losses then go out as limit orders. */
  datatype Scene = Scene(scaleOut: bool, inGrace: bool, heldTooLong: bool, interrupted: bool, limitOnStop: bool)

  const ALL := SellOptions(None, None, None, None, None)

  function ReturnPct(avg: real, price: real): real
    requires avg > 0.0
  {
    (price - avg) / avg * 100.0
  }

  function GivebackPct(peak: real, price: real): real {
    if peak > 0.0 then (peak - price) / peak * 100.0 else 0.0
  }

  function Peak(s: Session): real { MaxReal(OrElse(s.highestPriceAfterEntry, s.avgBuyPrice), s.avgBuyPrice) }

  predicate IsRunner(s: Session, scene: Scene) { scene.scaleOut && s.scaleOutStage > 0 }

  function ScaleOutSellQty(holding: int, ratioPct: real, minRemainder: int): int {
    if holding <= 0 || ratioPct <= 0.0 then 0
    else
      var part := Floor(holding as real * (ratioPct / 100.0));
      MinInt(if holding - part <= minRemainder then holding else part, holding)
  }

  function FirstTargetQty(s: Session): int {
    ScaleOutSellQty(s.holdingQty, FIRST_TARGET_SELL_PCT, MIN_REMAINDER_QTY)
  }

  predicate BreakevenHit(runner: bool, peakPct: real, pct: real) {
    if runner then peakPct >= 4.0 && pct <= 1.0 else peakPct >= 1.5 && pct <= 0.0
  }

  predicate TrailingHit(runner: bool, peakPct: real, givebackPct: real) {
    if runner then peakPct >= 3.5 && givebackPct >= 2.5 else peakPct >= 1.8 && givebackPct >= 1.2
  }

  function StopOptions(scene: Scene, price: real): SellOptions {
    if scene.interrupted && scene.limitOnStop then
      var limit := MaxInt(MIN_LIMIT_ORDER_PRICE, if price > 0.0 then Floor(price) else MIN_LIMIT_ORDER_PRICE);
      SellOptions(None, None, None, Some(Limit), Some(limit as real))
    else ALL
  }

  function FirstTargetOptions(s: Session): SellOptions {
    var qty := FirstTargetQty(s);
    SellOptions(Some(qty), Some(qty >= s.holdingQty), Some(s.scaleOutStage + 1), None, None)
  }

  function UnlessInterrupted(scene: Scene, reason: Reason, opts: SellOptions): Exit {
    if scene.interrupted then Deferred(reason) else Leave(reason, opts)
  }

  /** The decision at a return, a best return and a giveback, all in percent. */
  function Ladder(s: Session, scene: Scene, pct: real, peakPct: real, givebackPct: real, price: real): Exit {
    var runner := IsRunner(s, scene);
    if pct <= s.stopLossPct then Leave(StopLoss, StopOptions(scene, price))
    else if runner && pct >= RUNNER_TAKE_PROFIT_PCT then Leave(RunnerProfit, ALL)
    else if scene.scaleOut && s.scaleOutStage == 0 && pct >= FIRST_TARGET_PCT && FirstTargetQty(s) > 0 then
      UnlessInterrupted(scene, FirstTarget, FirstTargetOptions(s))
    else if !runner && pct >= s.takeProfitPct then Leave(TakeProfit, ALL)
    else if !scene.inGrace && BreakevenHit(runner, peakPct, pct) then UnlessInterrupted(scene, Breakeven, ALL)
    else if !scene.inGrace && TrailingHit(runner, peakPct, givebackPct) then UnlessInterrupted(scene, TrailingStop, ALL)
    else if scene.heldTooLong then Leave(HeldTooLong, ALL)
    else Hold
  }

  /** The price is taken into the peak first, then judged against it. */
  function Decide(s: Session, scene: Scene, price: real): Exit {
    if !Evaluates(s) then Hold
    else
      var peak := Peak(UpdateHighest(s, price));
      Ladder(s, scene, ReturnPct(s.avgBuyPrice, price), ReturnPct(s.avgBuyPrice, peak), GivebackPct(peak, price), price)
  }

  // ----- the steps of the desk an evaluation is -----

  function EvaluateSell(sid: int, s: Session, orders: seq<Order>, scene: Scene, price: real,
                        lookupFails: bool, reply: Reply): (Session, seq<Order>) {
    var looked := Step(s, Evaluated(price));
    match Decide(s, scene, price)
    case Leave(_, opts) => AutoSell(sid, looked, orders, price, opts, lookupFails, reply)
    case _ => (looked, orders)
  }

  /** An evaluation is one look at the price and at most one automatic sell: what
      holds over all runs of the desk holds with exits taken by the ladder. */
  lemma EvaluationIsDeskSteps(cfg: Config, d: Desk, sid: int, scene: Scene, price: real,
                              lookupFails: bool, reply: Reply)
    requires sid in d.sessions
    ensures var (s', orders') := EvaluateSell(sid, d.sessions[sid], d.orders, scene, price, lookupFails, reply);
      var looked := StepDesk(cfg, d, PriceEvaluated(sid, price));
      Desk(d.sessions[sid := s'], orders') ==
        match Decide(d.sessions[sid], scene, price)
        case Leave(_, opts) => StepDesk(cfg, looked, SellBySignal(sid, price, opts, lookupFails, reply))
        case _ => looked
  {
  }

  // ----- how much is sold -----

  /** Scaling out sells the whole shares in 33 percent of the holding and never leaves a
      single share behind: it then sells all. Two or three shares are not
      scaled out at all: a third of them is less than one. */
  lemma FirstTargetLeavesNoDust(s: Session)
    requires s.holdingQty > 0
    ensures var qty := FirstTargetQty(s);
      && 0 <= qty <= s.holdingQty
      && (qty == 0 <==> s.holdingQty == 2 || s.holdingQty == 3)
      && (0 < qty < s.holdingQty ==> s.holdingQty - qty >= 2)
      && (qty == s.holdingQty <==> s.holdingQty == 1)
      && (s.holdingQty >= 2 ==> 100 * qty <= 33 * s.holdingQty < 100 * (qty + 1))
  {
    var h := s.holdingQty as real;
    assert FIRST_TARGET_SELL_PCT / 100.0 == 0.33;
    assert h * (FIRST_TARGET_SELL_PCT / 100.0) == 0.33 * h;
    var part := Floor(h * (FIRST_TARGET_SELL_PCT / 100.0));
    assert part as real <= 0.33 * h < part as real + 1.0;
  }

  /** Every exit of a position sells some of it: all of it, or a first part that
      leaves at least two shares. It pauses the session exactly when it sells all. */
  lemma ExitsSellAllOrAPart(s: Session, scene: Scene, price: real)
    requires Decide(s, scene, price).Leave?
    ensures var exit := Decide(s, scene, price); var qty := SellQty(s, exit.opts);
      && 0 < qty <= s.holdingQty
      && (qty == s.holdingQty || (exit.reason == FirstTarget && s.holdingQty - qty >= 2))
      && (PausesAfter(s, exit.opts) <==> qty == s.holdingQty)
  {
    FirstTargetLeavesNoDust(s);
  }

  // ----- the ladder in prices -----

  /** The price is `pct` percent above the average or more, or at most so far. */
  predicate GainedAtLeast(avg: real, price: real, pct: real) { 100.0 * (price - avg) >= pct * avg }

  predicate GainedAtMost(avg: real, price: real, pct: real) { 100.0 * (price - avg) <= pct * avg }

  /** The price is `pct` percent below the best one or more. */
  predicate GaveBack(best: real, price: real, pct: real) { 100.0 * (best - price) >= pct * best }

  /** The best price of the position: the average, the recorded peak or this price. */
  function BestPrice(s: Session, price: real): real {
    var known := if s.highestPriceAfterEntry > s.avgBuyPrice then s.highestPriceAfterEntry else s.avgBuyPrice;
    if price > known then price else known
  }

  /** Back at the average, or at one percent for a runner, after a gain that was worth
      protecting. */
  predicate FellBack(runner: bool, avg: real, best: real, price: real) {
    if runner then GainedAtLeast(avg, best, 4.0) && GainedAtMost(avg, price, 1.0)
    else GainedAtLeast(avg, best, 1.5) && price <= avg
  }

  /** So far below the best price, after such a gain. */
  predicate Trailed(runner: bool, avg: real, best: real, price: real) {
    if runner then GainedAtLeast(avg, best, 3.5) && GaveBack(best, price, 2.5)
    else GainedAtLeast(avg, best, 1.8) && GaveBack(best, price, 1.2)
  }

  /** The first exit that is due, in the order in which they are looked at. */
  function Due(s: Session, scene: Scene, price: real): Option<Reason> {
    var avg, best, runner := s.avgBuyPrice, BestPrice(s, price), scene.scaleOut && s.scaleOutStage > 0;
    if s.autoPausePending || s.holdingQty <= 0 || avg <= 0.0 then None
    else if GainedAtMost(avg, price, s.stopLossPct) then Some(StopLoss)
    else if runner && GainedAtLeast(avg, price, 6.0) then Some(RunnerProfit)
    else if scene.scaleOut && s.scaleOutStage == 0 && GainedAtLeast(avg, price, 2.0)
            && s.holdingQty != 2 && s.holdingQty != 3 then Some(FirstTarget)
    else if !runner && GainedAtLeast(avg, price, s.takeProfitPct) then Some(TakeProfit)
    else if !scene.inGrace && FellBack(runner, avg, best, price) then Some(Breakeven)
    else if !scene.inGrace && Trailed(runner, avg, best, price) then Some(TrailingStop)
    else if scene.heldTooLong then Some(HeldTooLong)
    else None
  }

  /** How it is carried out: a first target as a part with its stage; a stop loss while
      trading is interrupted, if so configured, as a limit at the whole won of the price,
      at least one; everything else sells all at the market. */
  function HowToLeave(s: Session, scene: Scene, price: real, reason: Reason): SellOptions {
    if reason == FirstTarget then
      var qty := FirstTargetQty(s);
      SellOptions(Some(qty), Some(qty == s.holdingQty), Some(s.scaleOutStage + 1), None, None)
    else if reason == StopLoss && scene.interrupted && scene.limitOnStop then
      SellOptions(None, None, None, Some(Limit), Some(if price < 1.0 then 1.0 else Floor(price) as real))
    else SellOptions(None, None, None, None, None)
  }

  lemma ReturnIff(avg: real, price: real, pct: real)
    requires avg > 0.0
    ensures ReturnPct(avg, price) >= pct <==> GainedAtLeast(avg, price, pct)
    ensures ReturnPct(avg, price) <= pct <==> GainedAtMost(avg, price, pct)
  {
    var r := ReturnPct(avg, price);
    DividedBack(price - avg, avg);
    assert r * avg == 100.0 * (price - avg);
    TimesOrder(pct, r, avg);
    TimesOrder(r, pct, avg);
  }

  lemma GivebackIff(best: real, price: real, pct: real)
    requires best > 0.0
    ensures GivebackPct(best, price) >= pct <==> GaveBack(best, price, pct)
  {
    var g := GivebackPct(best, price);
    DividedBack(best - price, best);
    assert g * best == 100.0 * (best - price);
    TimesOrder(pct, g, best);
  }

  lemma PeakIsBest(s: Session, price: real)
    requires s.avgBuyPrice > 0.0
    ensures Peak(UpdateHighest(s, price)) == BestPrice(s, price) >= s.avgBuyPrice
  {
  }

  lemma FellBackIff(runner: bool, avg: real, best: real, price: real)
    requires avg > 0.0
    ensures BreakevenHit(runner, ReturnPct(avg, best), ReturnPct(avg, price)) <==> FellBack(runner, avg, best, price)
  {
    ReturnIff(avg, best, 4.0);
    ReturnIff(avg, best, 1.5);
    ReturnIff(avg, price, 1.0);
    ReturnIff(avg, price, 0.0);
  }

  lemma TrailedIff(runner: bool, avg: real, best: real, price: real)
    requires avg > 0.0 && best > 0.0
    ensures TrailingHit(runner, ReturnPct(avg, best), GivebackPct(best, price)) <==> Trailed(runner, avg, best, price)
  {
    ReturnIff(avg, best, 3.5);
    ReturnIff(avg, best, 1.8);
    GivebackIff(best, price, 2.5);
    GivebackIff(best, price, 1.2);
  }

  /** What is decided at a price: the first exit that is due, put off while trading is
      interrupted if it is one that can wait. */
  lemma DecisionIs(s: Session, scene: Scene, price: real)
    ensures Decide(s, scene, price) ==
      match Due(s, scene, price)
      case None => Hold
      case Some(reason) =>
        if scene.interrupted && (reason == FirstTarget || reason == Breakeven || reason == TrailingStop)
        then Deferred(reason) else Leave(reason, HowToLeave(s, scene, price, reason))
  {
    if Evaluates(s) {
      var avg, best := s.avgBuyPrice, BestPrice(s, price);
      PeakIsBest(s, price);
      ReturnIff(avg, price, s.stopLossPct);
      ReturnIff(avg, price, 6.0);
      ReturnIff(avg, price, 2.0);
      ReturnIff(avg, price, s.takeProfitPct);
      FellBackIff(IsRunner(s, scene), avg, best, price);
      TrailedIff(IsRunner(s, scene), avg, best, price);
      FirstTargetLeavesNoDust(s);
    }
  }

  // ----- closed sets of prices -----

  lemma ReturnRises(avg: real, low: real, high: real)
    requires avg > 0.0 && low <= high
    ensures ReturnPct(avg, low) <= ReturnPct(avg, high)
  {
    assert (low - avg) / avg <= (high - avg) / avg;
  }

  lemma GivebackFalls(peak: real, low: real, high: real)
    requires low <= high
    ensures GivebackPct(peak, low) >= GivebackPct(peak, high)
  {
    if peak > 0.0 {
      assert (peak - low) / peak >= (peak - high) / peak;
    }
  }

  predicate Protects(e: Exit) {
    !e.Hold? && (e.reason == StopLoss || e.reason == Breakeven || e.reason == TrailingStop)
  }

  predicate TakesProfit(e: Exit) {
    !e.Hold? && (e.reason == RunnerProfit || e.reason == FirstTarget || e.reason == TakeProfit)
  }

  lemma LadderProtectsBelow(s: Session, scene: Scene, peakPct: real, pct: real, back: real, low: real,
                            pct': real, back': real, low': real)
    requires Protects(Ladder(s, scene, pct, peakPct, back, low)) && pct' <= pct && back' >= back
    ensures Protects(Ladder(s, scene, pct', peakPct, back', low'))
  {
  }

  /** A price at its own peak gives nothing back and cannot be below the floor. */
  lemma NoStopAtThePeak(s: Session, scene: Scene, peakPct: real, price: real)
    requires peakPct >= 0.0 && Protects(Ladder(s, scene, peakPct, peakPct, 0.0, price))
    ensures peakPct <= s.stopLossPct
  {
  }

  /** What a price would be protected from, every lower price is protected from,
      too: the position is left, or its sale deferred while trading is interrupted. */
  lemma ProtectionIsClosedDownward(s: Session, scene: Scene, low: real, high: real)
    requires low <= high && Protects(Decide(s, scene, high))
    ensures Protects(Decide(s, scene, low))
  {
    var avg := s.avgBuyPrice;
    var peak, peak' := Peak(UpdateHighest(s, high)), Peak(UpdateHighest(s, low));
    ReturnRises(avg, low, high);
    if peak == peak' {
      GivebackFalls(peak, low, high);
      LadderProtectsBelow(s, scene, ReturnPct(avg, peak), ReturnPct(avg, high), GivebackPct(peak, high), high,
                          ReturnPct(avg, low), GivebackPct(peak, low), low);
    } else {
      assert peak == high;
      assert GivebackPct(peak, high) == 0.0;
      ReturnRises(avg, avg, peak);
      NoStopAtThePeak(s, scene, ReturnPct(avg, peak), high);
    }
  }

  /** A price at which profit is taken: at every higher price it is taken, too. */
  lemma ProfitIsClosedUpward(s: Session, scene: Scene, low: real, high: real)
    requires low <= high && TakesProfit(Decide(s, scene, low))
    ensures TakesProfit(Decide(s, scene, high))
  {
    ReturnRises(s.avgBuyPrice, low, high);
  }

  /** Stop losses and full profit targets are never put off. */
  lemma StopLossIsNeverDeferred(s: Session, scene: Scene, price: real)
    requires Decide(s, scene, price).Deferred?
    ensures scene.interrupted && ReturnPct(s.avgBuyPrice, price) > s.stopLossPct
    ensures Decide(s, scene, price).reason in {FirstTarget, Breakeven, TrailingStop}
  {
  }
}
