/** The three day-trading analyses: the list of signals each one emits, and that
    no signal depends on a candle after its own. */
module DayTrading {
  import opened Numbers
  import opened Indicators

  datatype Direction = Buy | Sell

  datatype Evidence =
    | Breakout(upper: real, lower: real, range: real)
    | Cross(short: real, long: real)
    | Surge(volumeRatio: real, consecutiveUp: nat, rsi: Entry)

  /** `strength` is None where the program computes 0 / 0. */
  datatype Signal = Signal(direction: Direction, strength: Option<real>, date: int, price: real, evidence: Evidence)

  datatype Config =
    | BreakoutConfig(kFactor: real, lookbackPeriod: nat)
    | CrossoverConfig(shortPeriod: nat, longPeriod: nat)
    | VolumeSurgeConfig(volumeMultiplier: real, volumePeriod: nat, consecutiveUpCandles: int,
                        rsiOverbought: real, rsiPeriod: nat)

  function Closes(candles: seq<Candle>): seq<real> {
    seq(|candles|, i requires 0 <= i < |candles| => candles[i].close)
  }

  function Volumes(candles: seq<Candle>): seq<real> {
    seq(|candles|, i requires 0 <= i < |candles| => candles[i].volume)
  }

  // ----- breakout -----

  /** The range is between 0.5 and 10 percent of the close; a close of 0 makes
      the share infinite. */
  predicate TypicalRange(range: real, close: real) {
    close != 0.0 && 0.5 <= RangePct(range, close) <= 10.0
  }

  function RangePct(range: real, close: real): real
    requires close != 0.0
  {
    range / close * 100.0
  }

  function Push(distance: real, range: real): real
    requires range != 0.0
  {
    MinReal(distance / range + 0.5, 1.0)
  }

  /** The price that counts as a break on the upper side; with -k on the lower. */
  function Level(open: real, range: real, k: real): real { open + range * k }

  function BreakoutAt(k: real, previous: Candle, today: Candle): Option<Signal> {
    var range := previous.high - previous.low;
    if range <= 0.0 then None
    else
      var upper, lower := Level(today.open, range, k), Level(today.open, range, -k);
      if !TypicalRange(range, today.close) then None
      else if today.close >= upper then
        Some(Signal(Buy, Some(Push(today.close - upper, range)), today.date, today.close,
                    Breakout(upper, lower, range)))
      else if today.close <= lower then
        Some(Signal(Sell, Some(Push(lower - today.close, range)), today.date, today.close,
                    Breakout(upper, lower, range)))
      else None
  }

  // ----- moving averages that cross -----

  /** Capped at 1; a long average of 0 makes the distance infinite. */
  function CrossStrength(short: real, long: real): real {
    if long == 0.0 then 1.0 else MinReal(AbsReal(short - long) / long * 100.0, 1.0)
  }

  /** Comparisons with what is not a number are false. */
  function CrossAt(prevShort: Entry, prevLong: Entry, short: Entry, long: Entry, today: Candle): Option<Signal> {
    if !prevShort.Number? || !prevLong.Number? || !short.Number? || !long.Number? then None
    else if prevShort.value <= prevLong.value && short.value > long.value then
      Some(Signal(Buy, Some(CrossStrength(short.value, long.value)), today.date, today.close,
                  Cross(short.value, long.value)))
    else if prevShort.value >= prevLong.value && short.value < long.value then
      Some(Signal(Sell, Some(CrossStrength(short.value, long.value)), today.date, today.close,
                  Cross(short.value, long.value)))
    else None
  }

  // ----- volume -----

  function SurgeStrength(ratio: real, multiplier: real): Option<real> {
    if multiplier == 0.0 then (if ratio > 0.0 then Some(1.0) else None)
    else Some(MinReal(ratio / (multiplier * 2.0), 1.0))
  }

  function SurgeAt(cfg: Config, average: Entry, rsi: Entry, up: nat, today: Candle): Option<Signal>
    requires cfg.VolumeSurgeConfig?
  {
    if !average.Number? || average.value == 0.0 then None
    else
      var ratio := today.volume / average.value;
      if ratio >= cfg.volumeMultiplier && up >= cfg.consecutiveUpCandles
         && (rsi.Absent? || (rsi.Number? && rsi.value < cfg.rsiOverbought))
      then Some(Signal(Buy, SurgeStrength(ratio, cfg.volumeMultiplier), today.date, today.close, Surge(ratio, up, rsi)))
      else None
  }

  // ----- the signals of a list of candles -----

  /** The first entry an analysis looks at. */
  function First(cfg: Config): nat {
    match cfg
    case BreakoutConfig(_, lookback) => lookback
    case CrossoverConfig(_, _) => 1
    case VolumeSurgeConfig(_, period, _, _, _) => period
  }

  /** What is found at one entry. */
  function SignalAt(cfg: Config, candles: seq<Candle>, i: nat): Option<Signal>
    requires i < |candles|
  {
    if i < First(cfg) then None
    else match cfg
      case BreakoutConfig(k, lookback) => BreakoutAt(k, candles[i - lookback], candles[i])
      case CrossoverConfig(s, l) =>
        var closes := Closes(candles);
        CrossAt(SmaAt(closes, s, i - 1), SmaAt(closes, l, i - 1), SmaAt(closes, s, i), SmaAt(closes, l, i), candles[i])
      case VolumeSurgeConfig(_, v, _, _, r) =>
        SurgeAt(cfg, SmaAt(Volumes(candles), v, i), RsiAt(Closes(candles), r, i), UpRun(candles, i), candles[i])
  }

  function Entries(cfg: Config, candles: seq<Candle>): seq<Option<Signal>>
  {
    seq(|candles|, i requires 0 <= i < |candles| => SignalAt(cfg, candles, i))
  }

  function AsSeq(s: Option<Signal>): seq<Signal> { if s.Some? then [s.value] else [] }

  /** The signals found, in order. */
  function Collect(found: seq<Option<Signal>>): seq<Signal> {
    if |found| == 0 then [] else Collect(found[..|found| - 1]) + AsSeq(found[|found| - 1])
  }

  function AllSignals(cfg: Config, candles: seq<Candle>): seq<Signal>
  {
    Collect(Entries(cfg, candles))
  }

  /** The signals found at the first `i` entries. */
  function Before(found: seq<Option<Signal>>, i: nat): seq<Signal> { Collect(found[..MinInt(i, |found|)]) }

  lemma BeforeNext(found: seq<Option<Signal>>, i: nat)
    requires i < |found|
    ensures Before(found, i + 1) == Before(found, i) + AsSeq(found[i])
  {
    assert found[..i + 1][..i] == found[..i];
  }

  lemma BeforeEnd(found: seq<Option<Signal>>, i: nat)
    requires i >= |found|
    ensures Before(found, i) == Collect(found)
  {
    assert found[..|found|] == found;
  }

  lemma {:induction false} CollectConcat(a: seq<Option<Signal>>, b: seq<Option<Signal>>)
    ensures Collect(a + b) == Collect(a) + Collect(b)
  {
    if |b| == 0 {
      assert a + b == a;
    } else {
      assert (a + b)[..|a + b| - 1] == a + b[..|b| - 1];
      CollectConcat(a, b[..|b| - 1]);
    }
  }

  lemma {:induction false} NothingBefore(found: seq<Option<Signal>>, i: nat)
    requires forall j :: 0 <= j < i && j < |found| ==> found[j] == None
    ensures Before(found, i) == []
  {
    if i > 0 {
      NothingBefore(found, i - 1);
      if i <= |found| {
        BeforeNext(found, i - 1);
      }
    }
  }

  lemma NothingBeforeFirst(cfg: Config, candles: seq<Candle>)
    ensures Before(Entries(cfg, candles), First(cfg)) == []
  {
    NothingBefore(Entries(cfg, candles), First(cfg));
  }

  lemma BreakoutEntry(k: real, lookback: nat, candles: seq<Candle>, i: nat)
    requires lookback <= i < |candles|
    ensures Entries(BreakoutConfig(k, lookback), candles)[i] == BreakoutAt(k, candles[i - lookback], candles[i])
  {
  }

  lemma CrossEntry(s: nat, l: nat, candles: seq<Candle>, i: nat)
    requires 1 <= i < |candles|
    ensures var closes := Closes(candles);
      Entries(CrossoverConfig(s, l), candles)[i] ==
      CrossAt(SmaAt(closes, s, i - 1), SmaAt(closes, l, i - 1), SmaAt(closes, s, i), SmaAt(closes, l, i), candles[i])
  {
  }

  lemma SurgeEntry(cfg: Config, candles: seq<Candle>, i: nat)
    requires cfg.VolumeSurgeConfig? && cfg.volumePeriod <= i < |candles|
    ensures Entries(cfg, candles)[i] ==
      SurgeAt(cfg, SmaAt(Volumes(candles), cfg.volumePeriod, i), RsiAt(Closes(candles), cfg.rsiPeriod, i),
              UpRun(candles, i), candles[i])
  {
  }

  // ----- the loops of the program -----

  /** One turn of the breakout loop. */
  method FindBreakout(k: real, previous: Candle, today: Candle) returns (found: Option<Signal>)
    ensures found == BreakoutAt(k, previous, today)
  {
    var prevRange := previous.high - previous.low;
    if prevRange <= 0.0 {
      return None;
    }
    var close := today.close;
    var upperBreak, lowerBreak := Level(today.open, prevRange, k), Level(today.open, prevRange, -k);
    if close == 0.0 {
      return None;
    }
    var rangePct := RangePct(prevRange, close);
    found := None;
    if close >= upperBreak {
      if rangePct >= 0.5 && rangePct <= 10.0 {
        var strength := Push(close - upperBreak, prevRange);
        found := Some(Signal(Buy, Some(strength), today.date, close, Breakout(upperBreak, lowerBreak, prevRange)));
      }
    } else if close <= lowerBreak {
      if rangePct >= 0.5 && rangePct <= 10.0 {
        var strength := Push(lowerBreak - close, prevRange);
        found := Some(Signal(Sell, Some(strength), today.date, close, Breakout(upperBreak, lowerBreak, prevRange)));
      }
    }
  }

  method AnalyzeBreakout(candles: seq<Candle>, kFactor: real, lookbackPeriod: nat) returns (signals: seq<Signal>)
    ensures signals == AllSignals(BreakoutConfig(kFactor, lookbackPeriod), candles)
  {
    ghost var cfg := BreakoutConfig(kFactor, lookbackPeriod);
    ghost var found := Entries(cfg, candles);
    signals := [];
    var i := lookbackPeriod;
    NothingBeforeFirst(cfg, candles);
    while i < |candles|
      invariant lookbackPeriod <= i
      invariant signals == Before(found, i)
    {
      BeforeNext(found, i);
      BreakoutEntry(kFactor, lookbackPeriod, candles, i);
      var signal := FindBreakout(kFactor, candles[i - lookbackPeriod], candles[i]);
      if signal.Some? {
        signals := signals + [signal.value];
      }
      i := i + 1;
    }
    BeforeEnd(found, i);
  }

  method AnalyzeCrossover(candles: seq<Candle>, shortPeriod: nat, longPeriod: nat) returns (signals: seq<Signal>)
    ensures signals == AllSignals(CrossoverConfig(shortPeriod, longPeriod), candles)
  {
    ghost var cfg := CrossoverConfig(shortPeriod, longPeriod);
    ghost var found := Entries(cfg, candles);
    signals := [];
    var closes := Closes(candles);
    var shortSMA := CalculateSMA(closes, shortPeriod);
    var longSMA := CalculateSMA(closes, longPeriod);
    var i := 1;
    NothingBeforeFirst(cfg, candles);
    while i < |candles|
      invariant 1 <= i
      invariant signals == Before(found, i)
    {
      BeforeNext(found, i);
      CrossEntry(shortPeriod, longPeriod, candles, i);
      var prevShort, prevLong, currShort, currLong := shortSMA[i - 1], longSMA[i - 1], shortSMA[i], longSMA[i];
      if prevShort.Number? && prevLong.Number? && currShort.Number? && currLong.Number? {
        var s, l := currShort.value, currLong.value;
        if prevShort.value <= prevLong.value && s > l {
          signals := signals + [Signal(Buy, Some(CrossStrength(s, l)), candles[i].date, candles[i].close, Cross(s, l))];
        } else if prevShort.value >= prevLong.value && s < l {
          signals := signals
            + [Signal(Sell, Some(CrossStrength(s, l)), candles[i].date, candles[i].close, Cross(s, l))];
        }
      }
      i := i + 1;
    }
    BeforeEnd(found, i);
  }

  /** One turn of the volume loop. */
  method FindSurge(cfg: Config, candles: seq<Candle>, i: nat, avgVol: Entry, rsi: Entry)
    returns (found: Option<Signal>)
    requires cfg.VolumeSurgeConfig? && i < |candles|
    ensures found == SurgeAt(cfg, avgVol, rsi, UpRun(candles, i), candles[i])
  {
    if !avgVol.Number? || avgVol.value == 0.0 {
      return None;
    }
    var volRatio := candles[i].volume / avgVol.value;
    var consecutiveUp := CountConsecutiveUpCandles(candles, i);
    var rsiNotOverbought := rsi.Absent? || (rsi.Number? && rsi.value < cfg.rsiOverbought);
    if volRatio >= cfg.volumeMultiplier && consecutiveUp >= cfg.consecutiveUpCandles && rsiNotOverbought {
      found := Some(Signal(Buy, SurgeStrength(volRatio, cfg.volumeMultiplier), candles[i].date,
                           candles[i].close, Surge(volRatio, consecutiveUp, rsi)));
    } else {
      found := None;
    }
  }

  method AnalyzeVolumeSurge(candles: seq<Candle>, cfg: Config) returns (signals: seq<Signal>)
    requires cfg.VolumeSurgeConfig?
    ensures signals == AllSignals(cfg, candles)
  {
    ghost var found := Entries(cfg, candles);
    signals := [];
    var rsiValues := CalculateRSI(Closes(candles), cfg.rsiPeriod);
    var avgVolumes := CalculateAvgVolume(Volumes(candles), cfg.volumePeriod);
    var i := cfg.volumePeriod;
    NothingBeforeFirst(cfg, candles);
    while i < |candles|
      invariant cfg.volumePeriod <= i
      invariant signals == Before(found, i)
    {
      BeforeNext(found, i);
      SurgeEntry(cfg, candles, i);
      var signal := FindSurge(cfg, candles, i, avgVolumes[i], rsiValues[i]);
      if signal.Some? {
        signals := signals + [signal.value];
      }
      i := i + 1;
    }
    BeforeEnd(found, i);
  }

  // ----- no look-ahead -----

  lemma ColumnsOfPrefix(candles: seq<Candle>, k: nat)
    requires k <= |candles|
    ensures Closes(candles[..k]) == Closes(candles)[..k] && Volumes(candles[..k]) == Volumes(candles)[..k]
  {
  }

  /** What is emitted at an entry does not change when later candles arrive. */
  lemma SignalIsStable(cfg: Config, candles: seq<Candle>, k: nat, i: nat)
    requires i < k <= |candles|
    ensures SignalAt(cfg, candles[..k], i) == SignalAt(cfg, candles, i)
  {
    ColumnsOfPrefix(candles, k);
    if i < First(cfg) {
      return;
    }
    match cfg
    case BreakoutConfig(_, _) =>
    case CrossoverConfig(s, l) =>
      SmaPrefix(Closes(candles), s, k, i - 1);
      SmaPrefix(Closes(candles), l, k, i - 1);
      SmaPrefix(Closes(candles), s, k, i);
      SmaPrefix(Closes(candles), l, k, i);
    case VolumeSurgeConfig(_, v, _, _, r) =>
      SmaPrefix(Volumes(candles), v, k, i);
      RsiPrefix(Closes(candles), r, k, i);
      UpRunPrefix(candles, k, i);
  }

  /** For every list of candles and every prefix of it: the prefix alone yields
      exactly the signals that the whole list yields at entries inside it, and
      the whole list only adds signals found at entries after it. */
  lemma NoLookAhead(cfg: Config, candles: seq<Candle>, k: nat)
    requires k <= |candles|
    ensures var found := Entries(cfg, candles);
      && AllSignals(cfg, candles[..k]) == Collect(found[..k])
      && AllSignals(cfg, candles) == AllSignals(cfg, candles[..k]) + Collect(found[k..])
  {
    var found, early := Entries(cfg, candles), Entries(cfg, candles[..k]);
    forall i | 0 <= i < k ensures early[i] == found[i] {
      SignalIsStable(cfg, candles, k, i);
    }
    assert early == found[..k];
    assert found == found[..k] + found[k..];
    CollectConcat(found[..k], found[k..]);
  }

  // ----- what the signals mean -----

  lemma ShareIsNonNegative(a: real, b: real)
    requires a >= 0.0 && b > 0.0
    ensures a / b >= 0.0
  {
  }

  /** A breakout has a strength between a half and one. */
  lemma BreakoutStrength(k: real, previous: Candle, today: Candle)
    requires BreakoutAt(k, previous, today).Some?
    ensures var s := BreakoutAt(k, previous, today).value.strength; s.Some? && 0.5 <= s.value <= 1.0
  {
    var range := previous.high - previous.low;
    var upper, lower := Level(today.open, range, k), Level(today.open, range, -k);
    if today.close >= upper {
      ShareIsNonNegative(today.close - upper, range);
    } else {
      ShareIsNonNegative(lower - today.close, range);
    }
  }

  function Smas(closes: seq<real>, period: nat): seq<Entry> {
    seq(|closes|, i requires 0 <= i < |closes| => SmaAt(closes, period, i))
  }

  predicate Known(a: seq<Entry>, b: seq<Entry>, i: nat)
    requires i < |a| == |b|
  {
    a[i].Number? && b[i].Number?
  }

  /** `a` crosses above, or below, `b` at entry i. */
  predicate Golden(a: seq<Entry>, b: seq<Entry>, i: nat)
    requires 1 <= i < |a| == |b|
  {
    Known(a, b, i - 1) && Known(a, b, i) && a[i - 1].value <= b[i - 1].value && a[i].value > b[i].value
  }

  predicate Dead(a: seq<Entry>, b: seq<Entry>, i: nat)
    requires 1 <= i < |a| == |b|
  {
    Known(a, b, i - 1) && Known(a, b, i) && a[i - 1].value >= b[i - 1].value && a[i].value < b[i].value
  }

  /** A buy is a golden cross of the averages, a sale a dead one. */
  lemma SignalOfCross(s: nat, l: nat, candles: seq<Candle>, i: nat)
    requires 1 <= i < |candles|
    ensures var at := SignalAt(CrossoverConfig(s, l), candles, i);
      var short, long := Smas(Closes(candles), s), Smas(Closes(candles), l);
      && (at.Some? && at.value.direction == Buy <==> Golden(short, long, i))
      && (at.Some? && at.value.direction == Sell <==> Dead(short, long, i))
  {
  }

  lemma {:induction false} StaysAbove(a: seq<Entry>, b: seq<Entry>, i: nat, j: nat)
    requires |a| == |b| && 1 <= i <= j < |a| && Golden(a, b, i)
    requires forall m :: i <= m <= j ==> Known(a, b, m)
    requires forall m :: i < m <= j ==> !Dead(a, b, m)
    ensures Known(a, b, j) && a[j].value >= b[j].value
    decreases j
  {
    if i < j {
      StaysAbove(a, b, i, j - 1);
      assert !Dead(a, b, j);
    }
  }

  lemma SecondGoldenIff(a: seq<Entry>, b: seq<Entry>, i: nat, j: nat)
    requires |a| == |b| && 1 <= i < j < |a| && Golden(a, b, i)
    requires forall m :: i <= m <= j ==> Known(a, b, m)
    requires forall m :: i < m < j ==> !Dead(a, b, m)
    ensures Known(a, b, j) && (Golden(a, b, j) <==> a[j - 1] == b[j - 1] && a[j].value > b[j].value)
  {
    StaysAbove(a, b, i, j - 1);
  }

  /** Once both averages are known they stay known. */
  lemma AveragesStayKnown(closes: seq<real>, s: nat, l: nat, i: nat, j: nat)
    requires i <= j < |closes| && Known(Smas(closes, s), Smas(closes, l), i)
    ensures Known(Smas(closes, s), Smas(closes, l), j)
  {
  }

  /** After a golden cross and without a dead cross since, there is another golden
      cross exactly when the averages were equal the day before and the short one
      is above again: the two kinds alternate unless the averages touch. */
  lemma CrossesAlternateUnlessTheyTouch(closes: seq<real>, s: nat, l: nat, a: seq<Entry>, b: seq<Entry>, i: nat, j: nat)
    requires a == Smas(closes, s) && b == Smas(closes, l)
    requires 1 <= i < j < |closes| && Golden(a, b, i)
    requires forall m :: i < m < j ==> !Dead(a, b, m)
    ensures Known(a, b, j)
    ensures Golden(a, b, j) <==> a[j - 1] == b[j - 1] && a[j].value > b[j].value
  {
    forall m | i <= m <= j ensures Known(a, b, m) {
      AveragesStayKnown(closes, s, l, i, m);
    }
    SecondGoldenIff(a, b, i, j);
  }

  lemma AverageOfTwo(closes: seq<real>, i: nat)
    requires 1 <= i < |closes|
    ensures SmaAt(closes, 2, i) == Number((closes[i - 1] + closes[i]) / 2.0)
    ensures SmaAt(closes, 1, i) == Number(closes[i])
  {
    assert SumOf(closes, i - 1, i + 1) == SumOf(closes, i - 1, i) + closes[i];
    assert SumOf(closes, i - 1, i) == SumOf(closes, i - 1, i - 1) + closes[i - 1];
    assert SumOf(closes, i, i + 1) == SumOf(closes, i, i) + closes[i];
  }

  /** A fall, a rise, a day at the same price and another rise: the averages over
      one and two days touch, and there are two golden crosses in a row. */
  lemma TouchGivesTwoGoldenCrosses()
    ensures var closes := [2.0, 1.0, 2.0, 2.0, 3.0];
      var a, b := Smas(closes, 1), Smas(closes, 2);
      Golden(a, b, 2) && !Dead(a, b, 3) && Golden(a, b, 4)
  {
    var closes := [2.0, 1.0, 2.0, 2.0, 3.0];
    AverageOfTwo(closes, 1);
    AverageOfTwo(closes, 2);
    AverageOfTwo(closes, 3);
    AverageOfTwo(closes, 4);
  }
}
