/** The trading session as the program has it: an object whose fields each fill
    and each evaluated price assign step by step. */
module SessionEntity {
  import opened Numbers
  import opened OrderLedger
  import opened Position

  class AutoTradingSession {
    const user: int
    const stock: string
    const investmentAmount: int
    var strategyId: string
    var variant: Option<string>
    var stopLossPct: real
    var takeProfitPct: real
    var addOnAllowed: bool
    var life: Life
    var autoPausePending: bool
    var addOnBuyCount: int
    var realizedPnl: int
    var unrealizedPnl: int
    var holdingQty: int
    var avgBuyPrice: real
    var highestPriceAfterEntry: real
    var scaleOutStage: int
    var initialQty: int
    var totalBuys: int
    var totalSells: int
    var enteredAt: Option<int>

    function View(): Session
      reads this
    {
      Session(user, stock, strategyId, variant, investmentAmount, stopLossPct, takeProfitPct, addOnAllowed,
              life, autoPausePending, addOnBuyCount, realizedPnl, unrealizedPnl, holdingQty, avgBuyPrice,
              highestPriceAfterEntry, scaleOutStage, initialQty, totalBuys, totalSells, enteredAt)
    }

    constructor (user: int, stock: string, strategyId: string, variant: Option<string>, investmentAmount: int,
                 stopLossPct: real, takeProfitPct: real, addOnAllowed: bool)
      ensures Sound(View()) && View().holdingQty == 0 && View().realizedPnl == 0
      ensures View().user == user && View().stock == stock && View().investmentAmount == investmentAmount
    {
      this.user, this.stock, this.strategyId, this.variant := user, stock, strategyId, variant;
      this.investmentAmount, this.stopLossPct, this.takeProfitPct := investmentAmount, stopLossPct, takeProfitPct;
      this.addOnAllowed, life, autoPausePending := addOnAllowed, Active, false;
      addOnBuyCount, realizedPnl, unrealizedPnl, holdingQty, avgBuyPrice := 0, 0, 0, 0, 0.0;
      highestPriceAfterEntry, scaleOutStage, initialQty, totalBuys, totalSells := 0.0, 0, 0, 0, 0;
      enteredAt := None;
    }

    method ResetPositionRisk()
      modifies this
      ensures View() == old(View()).(highestPriceAfterEntry := 0.0, scaleOutStage := 0, initialQty := 0)
    {
      highestPriceAfterEntry := 0.0;
      scaleOutStage := 0;
      initialQty := 0;
    }

    method MarkPositionRiskOnBuy(price: real, wasFlat: bool)
      modifies this
      ensures View() == old(View()).(
        highestPriceAfterEntry := if wasFlat then price else MaxReal(old(highestPriceAfterEntry), price),
        initialQty := if holdingQty > 0 then holdingQty else old(initialQty),
        scaleOutStage := if holdingQty > 0 then 0 else old(scaleOutStage))
    {
      if wasFlat {
        highestPriceAfterEntry := price;
      } else {
        highestPriceAfterEntry := MaxReal(highestPriceAfterEntry, price);
      }
      if holdingQty > 0 {
        initialQty := holdingQty;
        scaleOutStage := 0;
      }
    }

    method UpdateHighestPriceAfterEntry(price: real) returns (changed: bool)
      modifies this
      ensures View() == UpdateHighest(old(View()), price)
      ensures changed <==> View() != old(View())
    {
      if price <= 0.0 {
        return false;
      }
      var currentHigh := OrElse(highestPriceAfterEntry, avgBuyPrice);
      if price > currentHigh {
        highestPriceAfterEntry := price;
        changed := true;
      } else if highestPriceAfterEntry == 0.0 && avgBuyPrice > 0.0 {
        highestPriceAfterEntry := avgBuyPrice;
        changed := true;
      } else {
        changed := false;
      }
    }

    method RefreshUnrealizedPnl(latestPrice: real)
      modifies this
      ensures View() == old(View()).(
        unrealizedPnl := Marked(old(unrealizedPnl), latestPrice, old(avgBuyPrice), old(holdingQty)))
    {
      if latestPrice != 0.0 {
        unrealizedPnl := Round((latestPrice - avgBuyPrice) * holdingQty as real);
      }
    }

    /** Holding, average, entry time and counters of a buy fill. */
    method AddShares(f: Fill, price: real)
      modifies this
      ensures var s, holding := old(View()), old(holdingQty) + f.qty;
        var entering := s.holdingQty <= 0 && holding > 0;
        View() == s.(
          holdingQty := holding, avgBuyPrice := NewAverage(s.avgBuyPrice, s.holdingQty, price, f.qty),
          enteredAt := if entering then Some(f.now) else s.enteredAt,
          addOnBuyCount := if !f.first then s.addOnBuyCount else if entering then 0 else s.addOnBuyCount + 1,
          totalBuys := if f.first then s.totalBuys + 1 else s.totalBuys)
    {
      var wasFlat := holdingQty <= 0;
      var totalCost := avgBuyPrice * holdingQty as real + price * f.qty as real;
      holdingQty := holdingQty + f.qty;
      avgBuyPrice := if holdingQty > 0 then totalCost / holdingQty as real else 0.0;
      if wasFlat && holdingQty > 0 {
        enteredAt := Some(f.now);
        if f.first {
          addOnBuyCount := 0;
        }
      } else if f.first {
        addOnBuyCount := addOnBuyCount + 1;
      }
      if f.first {
        totalBuys := totalBuys + 1;
      }
    }

    method BookBuyFill(f: Fill, price: real)
      requires price == ResolvedPrice(View(), f)
      modifies this
      ensures View() == BookBuy(old(View()), f)
    {
      var wasFlat := holdingQty <= 0;
      AddShares(f, price);
      MarkPositionRiskOnBuy(price, wasFlat);
      RefreshUnrealizedPnl(f.latestPrice);
    }

    method ClosePosition()
      modifies this
      ensures View() == old(View()).(
        holdingQty := 0, avgBuyPrice := 0.0, unrealizedPnl := 0, enteredAt := None, addOnBuyCount := 0,
        highestPriceAfterEntry := 0.0, scaleOutStage := 0, initialQty := 0)
    {
      holdingQty := 0;
      avgBuyPrice := 0.0;
      unrealizedPnl := 0;
      enteredAt := None;
      addOnBuyCount := 0;
      ResetPositionRisk();
    }

    /** Profit, holding and counter of a sell fill. */
    method TakeShares(f: Fill, price: real)
      modifies this
      ensures var s, sold := old(View()), MinInt(f.qty, old(holdingQty));
        View() == s.(
          realizedPnl := s.realizedPnl + Gain(s.avgBuyPrice, price, sold),
          holdingQty := MaxInt(0, s.holdingQty - sold),
          totalSells := if f.first then s.totalSells + 1 else s.totalSells)
    {
      var sold := MinInt(f.qty, holdingQty);
      var pnl := (price - avgBuyPrice) * sold as real;
      assert Round(pnl) == Gain(avgBuyPrice, price, sold);
      realizedPnl := realizedPnl + Round(pnl);
      holdingQty := MaxInt(0, holdingQty - sold);
      if f.first {
        totalSells := totalSells + 1;
      }
    }

    method BookSellFill(f: Fill, price: real)
      requires price == ResolvedPrice(View(), f)
      modifies this
      ensures View() == BookSell(old(View()), f)
    {
      TakeShares(f, price);
      if holdingQty <= 0 {
        ClosePosition();
      } else {
        if f.first && f.stage.Some? {
          scaleOutStage := f.stage.value;
        }
        RefreshUnrealizedPnl(f.latestPrice);
      }
    }

    method ApplyConfirmedOrderExecution(f: Fill)
      modifies this
      ensures View() == ApplyFill(old(View()), f)
    {
      var price := OrElse(OrElse(f.price, f.orderPrice), avgBuyPrice);
      if f.qty <= 0 || price <= 0.0 {
        return;
      }
      if f.side == Buy {
        BookBuyFill(f, price);
      } else {
        BookSellFill(f, price);
      }
    }

    method EvaluatePrice(price: real)
      modifies this
      ensures View() == Step(old(View()), Evaluated(price))
    {
      if autoPausePending || holdingQty <= 0 || avgBuyPrice <= 0.0 {
        return;
      }
      var _ := UpdateHighestPriceAfterEntry(price);
    }
  }
}
