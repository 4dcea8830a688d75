/** Per-strategy buying policy: how much of the session budget the first entry
    and each add-on may take, and how many add-ons there are. */
module TradeMeta {
  import opened Numbers

  datatype Meta = Meta(initialBuyRatioPct: real, addOnBuyRatioPct: real, maxAddOnCount: nat)

  const DEFAULT_META := Meta(32.0, 15.0, 3)

  function MeanReversionMeta(variant: string): Meta {
    if variant == "rsi" || variant == "bollinger" then Meta(27.0, 10.0, 4)
    else if variant == "grid" || variant == "magic_split" then Meta(20.0, 10.0, 8)
    else DEFAULT_META
  }

  /** An empty variant counts as none. */
  function StrategyMeta(strategyId: string, variant: Option<string>): Meta {
    if strategyId == "mean-reversion" && variant.Some? && variant.value != "" then MeanReversionMeta(variant.value)
    else if strategyId == "day-trading" then Meta(40.0, 15.0, 3)
    else if strategyId == "candle-pattern" then Meta(32.0, 15.0, 3)
    else if strategyId == "infinity-bot" then Meta(5.0, 5.0, 19)
    else if strategyId == "momentum-power" then Meta(50.0, 20.0, 2)
    else if strategyId == "momentum-surge" then Meta(40.0, 15.0, 3)
    else if strategyId == "scalping" then Meta(50.0, 0.0, 0)
    else DEFAULT_META
  }

  /** Every policy enters with something, and first entry plus all add-ons never
      plan to spend more than the whole budget. */
  lemma PolicyFitsBudget(strategyId: string, variant: Option<string>)
    ensures var m := StrategyMeta(strategyId, variant);
      && 0.0 < m.initialBuyRatioPct <= 50.0
      && m.initialBuyRatioPct + m.maxAddOnCount as real * m.addOnBuyRatioPct <= 100.0
  {
    var m := StrategyMeta(strategyId, variant);
    assert m == DEFAULT_META || m == Meta(27.0, 10.0, 4) || m == Meta(20.0, 10.0, 8) || m == Meta(40.0, 15.0, 3)
        || m == Meta(32.0, 15.0, 3) || m == Meta(5.0, 5.0, 19) || m == Meta(50.0, 20.0, 2) || m == Meta(50.0, 0.0, 0);
  }
}
