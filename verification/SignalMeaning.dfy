/** What the day-trading signals mean, in prices and volumes: when there is one, which
    way it points, how strong it is, and that each is emitted once. */
module SignalMeaning {
  import opened Numbers
  import opened Indicators
  import opened DayTrading

  // ----- emission -----

  lemma CollectNext(found: seq<Option<Signal>>, i: nat, next: Option<Signal>)
    requires i < |found| && found[i] == next
    ensures Collect(found[..i + 1]) == Collect(found[..i]) + (if next.Some? then [next.value] else [])
  {
    assert found[..i + 1][..i] == found[..i];
  }

  /** One candle more adds the signal found at it, and nothing else. */
  lemma OneCandleMore(cfg: Config, candles: seq<Candle>, i: nat, at: Option<Signal>)
    requires i < |candles| && at == SignalAt(cfg, candles, i)
    ensures AllSignals(cfg, candles[..i + 1])
         == AllSignals(cfg, candles[..i]) + (if at.Some? then [at.value] else [])
  {
    NoLookAhead(cfg, candles, i);
    NoLookAhead(cfg, candles, i + 1);
    CollectNext(Entries(cfg, candles), i, at);
  }

  /** Nothing is found before the lookback, or window, is full. */
  lemma NothingBeforeItIsFull(cfg: Config, candles: seq<Candle>, i: nat)
    requires i < |candles|
    requires match cfg
      case BreakoutConfig(_, lookback) => i < lookback
      case CrossoverConfig(short, long) => i < short || i < long || i == 0
      case VolumeSurgeConfig(_, period, _, _, _) => i < period
    ensures SignalAt(cfg, candles, i) == None
  {
  }

  // ----- breakout -----

  lemma AtLeastHalfPct(pct: real, range: real, close: real)
    requires close > 0.0 && pct * close == 100.0 * range
    ensures 0.5 <= pct <==> 200.0 * range >= close
  {
    TimesOrder(0.5, pct, close);
  }

  lemma AtMostTenPct(pct: real, range: real, close: real)
    requires close > 0.0 && pct * close == 100.0 * range
    ensures pct <= 10.0 <==> 10.0 * range <= close
  {
    TimesOrder(pct, 10.0, close);
  }

  lemma NegativePct(pct: real, range: real, close: real)
    requires close < 0.0 && range > 0.0 && pct * close == 100.0 * range
    ensures pct < 0.0
  {
  }

  lemma TypicalIff(range: real, close: real)
    requires range > 0.0 && close != 0.0
    ensures TypicalRange(range, close) <==> close > 0.0 && 200.0 * range >= close && 10.0 * range <= close
  {
    DividedBack(range, close);
    var pct := RangePct(range, close);
    assert pct * close == (range / close * close) * 100.0;
    if close > 0.0 {
      AtLeastHalfPct(pct, range, close);
      AtMostTenPct(pct, range, close);
    } else {
      NegativePct(pct, range, close);
    }
  }

  /** A day breaks out when its close leaves the opening price by k ranges of the day
      looked back to, upwards to buy and otherwise downwards to sell, if that range is
      between half a percent and ten percent of the close. */
  lemma BreakoutIff(k: real, lookback: nat, candles: seq<Candle>, i: nat)
    requires lookback <= i < |candles|
    ensures var at, today := SignalAt(BreakoutConfig(k, lookback), candles, i), candles[i];
      var range := candles[i - lookback].high - candles[i - lookback].low;
      var above, below := today.close >= today.open + k * range, today.close <= today.open - k * range;
      && (at.Some? <==>
            range > 0.0 && today.close > 0.0 && 200.0 * range >= today.close && 10.0 * range <= today.close
            && (above || below))
      && (at.Some? ==>
            && (at.value.direction == Buy <==> above)
            && at.value.date == today.date && at.value.price == today.close
            && at.value.evidence == Breakout(today.open + k * range, today.open - k * range, range))
  {
    var today, range := candles[i], candles[i - lookback].high - candles[i - lookback].low;
    assert Level(today.open, range, k) == today.open + k * range;
    assert Level(today.open, range, -k) == today.open - k * range;
    if range > 0.0 && today.close != 0.0 {
      TypicalIff(range, today.close);
    }
  }

  lemma PushIs(distance: real, range: real)
    requires range > 0.0 && distance >= 0.0
    ensures var s := Push(distance, range);
      if 2.0 * distance >= range then s == 1.0 else (s - 0.5) * range == distance
  {
    var q := distance / range;
    assert q * range == distance;
    TimesOrder(0.5, q, range);
  }

  /** It is the stronger the further it goes beyond that level: a half on it, and one
      from half a range on. */
  lemma BreakoutStrengthIs(k: real, previous: Candle, today: Candle)
    requires BreakoutAt(k, previous, today).Some?
    ensures var sig, range := BreakoutAt(k, previous, today).value, previous.high - previous.low;
      sig.evidence.Breakout? && sig.strength.Some?
      && var beyond :=
           if sig.direction == Buy then today.close - sig.evidence.upper else sig.evidence.lower - today.close;
         if 2.0 * beyond >= range then sig.strength.value == 1.0 else (sig.strength.value - 0.5) * range == beyond
  {
    var range := previous.high - previous.low;
    var upper, lower := Level(today.open, range, k), Level(today.open, range, -k);
    if today.close >= upper {
      PushIs(today.close - upper, range);
    } else {
      PushIs(lower - today.close, range);
    }
  }

  // ----- crossover -----

  lemma Capped(raw: real, long: real, hundredfold: real)
    requires long > 0.0 && raw * long == hundredfold
    ensures var s := MinReal(raw, 1.0); if hundredfold >= long then s == 1.0 else s * long == hundredfold
  {
    TimesOrder(1.0, raw, long);
  }

  lemma HundredTimes(apart: real, long: real, raw: real)
    requires long > 0.0 && raw == apart / long * 100.0
    ensures raw * long == 100.0 * apart
  {
    DividedBack(apart, long);
    assert raw * long == (apart / long * long) * 100.0;
  }

  /** A cross is as strong as the averages are apart, in percent of the long one, and
      at most one. */
  lemma CrossStrengthIs(short: real, long: real, apart: real)
    requires long >= 0.0 && apart == if short > long then short - long else long - short
    ensures var s := CrossStrength(short, long); if 100.0 * apart >= long then s == 1.0 else s * long == 100.0 * apart
  {
    if long > 0.0 {
      var raw := apart / long * 100.0;
      HundredTimes(apart, long, raw);
      Capped(raw, long, 100.0 * apart);
      assert CrossStrength(short, long) == MinReal(raw, 1.0);
    }
  }

  /** What a cross reports besides its direction. */
  lemma CrossReports(short: nat, long: nat, candles: seq<Candle>, i: nat)
    requires 1 <= i < |candles| && SignalAt(CrossoverConfig(short, long), candles, i).Some?
    ensures var at, closes := SignalAt(CrossoverConfig(short, long), candles, i).value, Closes(candles);
      var a, b := SmaAt(closes, short, i), SmaAt(closes, long, i);
      && a.Number? && b.Number? && at.evidence == Cross(a.value, b.value)
      && at.strength == Some(CrossStrength(a.value, b.value))
      && at.date == candles[i].date && at.price == candles[i].close
  {
  }

  // ----- volume -----

  /** The volume is `m` times the usual one, or more. */
  predicate Surges(volume: real, usual: real, m: real) {
    if usual > 0.0 then volume >= m * usual else usual < 0.0 && volume <= m * usual
  }

  lemma RatioIff(volume: real, usual: real, m: real)
    requires usual != 0.0
    ensures volume / usual >= m <==> Surges(volume, usual, m)
  {
    var ratio := volume / usual;
    assert ratio * usual == volume;
    if usual > 0.0 {
      TimesOrder(m, ratio, usual);
    } else {
      TimesOrder(m, ratio, -usual);
    }
  }

  /** A surge is bought when the volume reaches its multiple of the average volume, the
      required candles have risen in a row, and the relative strength, if there is one,
      is below its limit. */
  lemma SurgeIff(cfg: Config, candles: seq<Candle>, i: nat, usual: real)
    requires cfg.VolumeSurgeConfig? && 1 <= cfg.volumePeriod <= i < |candles|
    requires SmaAt(Volumes(candles), cfg.volumePeriod, i) == Number(usual)
    ensures var at, rsi := SignalAt(cfg, candles, i), RsiAt(Closes(candles), cfg.rsiPeriod, i);
      && (at.Some? <==>
            && Surges(candles[i].volume, usual, cfg.volumeMultiplier)
            && UpRun(candles, i) >= cfg.consecutiveUpCandles
            && (rsi.Number? ==> rsi.value < cfg.rsiOverbought) && !rsi.NotANumber?)
      && (at.Some? ==>
            at.value.direction == Buy && at.value.date == candles[i].date && at.value.price == candles[i].close)
  {
    if usual != 0.0 {
      RatioIff(candles[i].volume, usual, cfg.volumeMultiplier);
    }
  }

  /** A surge is as strong as half its ratio over the multiple it had to reach, and at
      most one; it has none when nothing had to be reached and nothing was traded. */
  lemma SurgeStrengthIs(ratio: real, m: real)
    requires m >= 0.0
    ensures var s := SurgeStrength(ratio, m);
      && (s.None? <==> m == 0.0 && ratio <= 0.0)
      && (s.Some? ==> if ratio >= 2.0 * m then s.value == 1.0 else s.value * (2.0 * m) == ratio)
  {
    if m > 0.0 {
      var raw := ratio / (m * 2.0);
      assert raw * (m * 2.0) == ratio;
      TimesOrder(1.0, raw, m * 2.0);
    }
  }

  /** What a surge reports. */
  lemma SurgeReports(cfg: Config, candles: seq<Candle>, i: nat)
    requires cfg.VolumeSurgeConfig? && i < |candles| && SignalAt(cfg, candles, i).Some?
    ensures var at, usual := SignalAt(cfg, candles, i).value, SmaAt(Volumes(candles), cfg.volumePeriod, i);
      && at.evidence.Surge? && at.strength == SurgeStrength(at.evidence.volumeRatio, cfg.volumeMultiplier)
      && usual.Number? && usual.value != 0.0 && at.evidence.volumeRatio == candles[i].volume / usual.value
      && at.evidence.consecutiveUp == UpRun(candles, i)
      && at.evidence.rsi == RsiAt(Closes(candles), cfg.rsiPeriod, i)
  {
  }
}
