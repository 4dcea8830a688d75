/** The buy decision read off the candles, and what it promises across the
    recording of ticks. */
module Scalping {
  import opened Numbers
  import opened Clock
  import opened Candles

  datatype Options = Options(
    minCompletedCandles: nat, maxTickAgeMs: int, entryStartTime: string, entryEndTime: string,
    minExecutionStrength: real, maxSpreadPct: real, minVolumeRatio: real, maxVwapPremiumPct: real,
    maxDailyGainPct: real, minConfirmations: int)

  datatype Refusal =
    | NoTick | StaleTick | OutsideHours | NotRegular | TooFewCandles | NoQuote | WideSpread | NoVwap
    | AwayFromVwap | UpTooMuch | NoTrend | TooFewConfirmations

  datatype Metrics = Metrics(
    fastSma: real, slowSma: real, volumeRatio: real, executionStrength: real, spreadPct: real,
    vwapPremiumPct: real, confirmations: nat)

  datatype Decision = Refuse(reason: Refusal) | Enter(metrics: Metrics)

  function Average(values: seq<real>): real {
    if |values| == 0 then 0.0 else SumReal(values) / |values| as real
  }

  function Closes(candles: seq<Candle>): seq<real> {
    seq(|candles|, i requires 0 <= i < |candles| => candles[i].close)
  }

  function Volumes(candles: seq<Candle>): seq<real> {
    seq(|candles|, i requires 0 <= i < |candles| => candles[i].volume as real)
  }

  function Count(bs: seq<bool>): nat {
    if |bs| == 0 then 0 else Count(bs[..|bs| - 1]) + (if bs[|bs| - 1] then 1 else 0)
  }

  /** The candles looked at: the last `n`; asking for none looks at all. */
  function Recent(completed: seq<Candle>, n: nat): seq<Candle> {
    if n == 0 then completed else LastN(completed, n)
  }

  function VolumeRatio(recent: seq<Candle>): real
    requires |recent| > 0
  {
    var average := Average(Volumes(recent[..|recent| - 1]));
    if average > 0.0 then recent[|recent| - 1].volume as real / average else 0.0
  }

  function SpreadPct(ask: real, bid: real): (pct: real)
    requires 0.0 < bid <= ask
    ensures 0.0 <= pct < 200.0
  {
    var mid := (ask + bid) / 2.0;
    (ask - bid) / mid * 100.0
  }

  function PremiumPct(price: real, vwap: real): real
    requires vwap > 0.0
  {
    (price - vwap) / vwap * 100.0
  }

  predicate StrongClose(c: Candle) {
    var range := c.high - c.low;
    c.close > c.open && (if range > 0.0 then (c.close - c.low) / range else 0.0) >= 0.65
  }

  function Confirmations(o: Options, latest: Candle, t: Tick, volumeRatio: real): nat {
    Count([StrongClose(latest), volumeRatio >= o.minVolumeRatio,
           t.quote.strength >= o.minExecutionStrength, t.price >= latest.close])
  }

  /** What speaks against buying in the quotes of a tick. */
  function JudgeQuotes(o: Options, t: Tick): Option<Refusal> {
    var q := t.quote;
    if q.ask <= 0.0 || q.bid <= 0.0 || q.ask < q.bid then Some(NoQuote)
    else if SpreadPct(q.ask, q.bid) > o.maxSpreadPct then Some(WideSpread)
    else if q.vwap.None? || q.vwap.value <= 0.0 then Some(NoVwap)
    else
      var premium := PremiumPct(t.price, q.vwap.value);
      if premium < 0.0 || premium > o.maxVwapPremiumPct then Some(AwayFromVwap)
      else if q.changeRate > o.maxDailyGainPct then Some(UpTooMuch)
      else None
  }

  /** What speaks against it in the candles: trend and momentum. */
  function JudgeCandles(o: Options, recent: seq<Candle>, t: Tick): Option<Refusal> {
    var fast, slow := Average(Closes(LastN(recent, 3))), Average(Closes(LastN(recent, 5)));
    if |recent| == 0 || fast <= slow || recent[|recent| - 1].close <= fast then Some(NoTrend)
    else if Confirmations(o, recent[|recent| - 1], t, VolumeRatio(recent)) < o.minConfirmations
    then Some(TooFewConfirmations)
    else None
  }

  /** Once a tick and enough candles are there. */
  function Judge(o: Options, recent: seq<Candle>, t: Tick): Decision {
    var refusal := JudgeQuotes(o, t);
    if refusal.Some? then Refuse(refusal.value)
    else
      var refusal := JudgeCandles(o, recent, t);
      if refusal.Some? then Refuse(refusal.value)
      else
        Enter(Metrics(
          Average(Closes(LastN(recent, 3))), Average(Closes(LastN(recent, 5))), VolumeRatio(recent), t.quote.strength,
          SpreadPct(t.quote.ask, t.quote.bid), PremiumPct(t.price, t.quote.vwap.value),
          Confirmations(o, recent[|recent| - 1], t, VolumeRatio(recent))))
  }

  function Evaluate(o: Options, s: StockState, now: int): Decision {
    if s.latest.None? || s.latestReceivedAt.None? then Refuse(NoTick)
    else
      var t := s.latest.value;
      if now - s.latestReceivedAt.value > o.maxTickAgeMs then Refuse(StaleTick)
      else if Before(t.stamp.text, o.entryStartTime) || Before(o.entryEndTime, t.stamp.text) then Refuse(OutsideHours)
      else if !t.regular then Refuse(NotRegular)
      else if |s.completed| < o.minCompletedCandles then Refuse(TooFewCandles)
      else Judge(o, Recent(s.completed, o.minCompletedCandles), t)
  }

  // ----- the decision without averages and percentages -----

  /** The spread is at most `pct` percent of the middle of the quotes. */
  predicate Tight(ask: real, bid: real, pct: real) {
    0.0 < bid <= ask && 200.0 * (ask - bid) <= pct * (ask + bid)
  }

  /** The price is at the average price or above it by at most `pct` percent. */
  predicate JustAbove(price: real, vwap: Option<real>, pct: real) {
    vwap.Some? && 0.0 < vwap.value <= price && 100.0 * (price - vwap.value) <= pct * vwap.value
  }

  /** The sum of the last `n` values, or of all. */
  function LastSum(values: seq<real>, n: nat): real { SumReal(values[MaxInt(0, |values| - n)..]) }

  /** It closed above its opening, in the upper 35 percent of its range. */
  predicate Strong(c: Candle) {
    c.close > c.open && c.high > c.low && 100.0 * (c.close - c.low) >= 65.0 * (c.high - c.low)
  }

  /** Its volume is at least `ratio` times the average of the candles before it. */
  predicate Busy(recent: seq<Candle>, ratio: real)
    requires |recent| > 0
  {
    var n := |recent| - 1;
    var before := SumReal(Volumes(recent[..n]));
    if before > 0.0 then recent[n].volume as real * n as real >= ratio * before else ratio <= 0.0
  }

  function AsOne(b: bool): nat { if b then 1 else 0 }

  /** The last close is above the average of three and that one above the average of
      five, of as many as there are. */
  predicate Rising(recent: seq<Candle>) { |recent| > 0 && Leads(recent) && ClosesAbove(recent) }

  /** How many of four signs there are: a strong close, a busy minute, strong
      executions, and a price not below the last close. */
  function Signs(o: Options, recent: seq<Candle>, t: Tick): nat
    requires |recent| > 0
  {
    var last := recent[|recent| - 1];
    AsOne(Strong(last)) + AsOne(Busy(recent, o.minVolumeRatio))
    + AsOne(t.quote.strength >= o.minExecutionStrength) + AsOne(t.price >= last.close)
  }

  /** The candles looked at. */
  function Looked(o: Options, s: StockState): seq<Candle> {
    var n := |s.completed| - o.minCompletedCandles;
    if o.minCompletedCandles == 0 || n < 0 then s.completed else s.completed[n..]
  }

  /** The first thing that speaks against buying in the quotes. */
  function AgainstQuotes(o: Options, t: Tick): Option<Refusal> {
    if !(0.0 < t.quote.bid <= t.quote.ask) then Some(NoQuote)
    else if !Tight(t.quote.ask, t.quote.bid, o.maxSpreadPct) then Some(WideSpread)
    else if t.quote.vwap.None? || t.quote.vwap.value <= 0.0 then Some(NoVwap)
    else if !JustAbove(t.price, t.quote.vwap, o.maxVwapPremiumPct) then Some(AwayFromVwap)
    else if t.quote.changeRate > o.maxDailyGainPct then Some(UpTooMuch)
    else None
  }

  /** The first thing in the candles. */
  function AgainstCandles(o: Options, recent: seq<Candle>, t: Tick): Option<Refusal> {
    if !Rising(recent) then Some(NoTrend)
    else if Signs(o, recent, t) < o.minConfirmations then Some(TooFewConfirmations)
    else None
  }

  /** The first thing at all: a tick is missing, old, outside the entry hours or not of
      the regular session; there are too few candles; the quotes; the candles. */
  function Against(o: Options, s: StockState, now: int): Option<Refusal> {
    if s.latest.None? || s.latestReceivedAt.None? then Some(NoTick)
    else
      var t := s.latest.value;
      if s.latestReceivedAt.value + o.maxTickAgeMs < now then Some(StaleTick)
      else if Before(t.stamp.text, o.entryStartTime) || Before(o.entryEndTime, t.stamp.text) then Some(OutsideHours)
      else if !t.regular then Some(NotRegular)
      else if |s.completed| < o.minCompletedCandles then Some(TooFewCandles)
      else if AgainstQuotes(o, t).Some? then AgainstQuotes(o, t)
      else AgainstCandles(o, Looked(o, s), t)
  }

  lemma SpreadIs(ask: real, bid: real)
    requires 0.0 < bid <= ask
    ensures SpreadPct(ask, bid) * (ask + bid) == 200.0 * (ask - bid)
  {
    var half := (ask + bid) / 2.0;
    DividedBack(ask - bid, half);
  }

  lemma SpreadIff(ask: real, bid: real, pct: real)
    requires 0.0 < bid <= ask
    ensures SpreadPct(ask, bid) <= pct <==> 200.0 * (ask - bid) <= pct * (ask + bid)
  {
    SpreadIs(ask, bid);
    TimesOrder(SpreadPct(ask, bid), pct, ask + bid);
  }

  lemma PremiumIs(price: real, vwap: real)
    requires vwap > 0.0
    ensures PremiumPct(price, vwap) * vwap == 100.0 * (price - vwap)
  {
    DividedBack(price - vwap, vwap);
  }

  lemma PremiumIff(price: real, vwap: real, pct: real)
    requires vwap > 0.0
    ensures var premium := PremiumPct(price, vwap);
      && (premium >= 0.0 <==> price >= vwap)
      && (premium <= pct <==> 100.0 * (price - vwap) <= pct * vwap)
  {
    PremiumIs(price, vwap);
    TimesOrder(0.0, PremiumPct(price, vwap), vwap);
    TimesOrder(PremiumPct(price, vwap), pct, vwap);
  }

  lemma AverageIs(values: seq<real>)
    requires |values| > 0
    ensures Average(values) * |values| as real == SumReal(values)
  {
    DividedBack(SumReal(values), |values| as real);
  }

  lemma AverageOf(values: seq<real>, m: nat, total: real)
    requires |values| == m > 0 && SumReal(values) == total
    ensures Average(values) * m as real == total
  {
    AverageIs(values);
  }

  lemma LastCloses(recent: seq<Candle>, n: nat)
    ensures Closes(LastN(recent, n)) == Closes(recent)[MaxInt(0, |recent| - n)..]
    ensures |LastN(recent, n)| == MinInt(n, |recent|)
  {
  }

  lemma LastAverageIs(recent: seq<Candle>, n: nat)
    requires |recent| > 0 && n > 0
    ensures Average(Closes(LastN(recent, n))) * MinInt(n, |recent|) as real == LastSum(Closes(recent), n)
  {
    LastCloses(recent, n);
    AverageOf(Closes(LastN(recent, n)), MinInt(n, |recent|), LastSum(Closes(recent), n));
  }

  /** `a` over `m` below `b` over `n`, without dividing. */
  lemma RatioOrder(x: real, a: real, m: real, y: real, b: real, n: real)
    requires m > 0.0 && n > 0.0 && x * m == a && y * n == b
    ensures x < y <==> a * n < b * m
  {
    TimesOrder(y, x, m * n);
    assert y * (m * n) == (y * n) * m && x * (m * n) == (x * m) * n;
  }

  lemma BelowRatio(x: real, a: real, m: real, y: real)
    requires m > 0.0 && x * m == a
    ensures x < y <==> a < y * m
  {
    TimesOrder(y, x, m);
  }

  /** The average of three above that of five, without dividing. */
  predicate Leads(recent: seq<Candle>) {
    LastSum(Closes(recent), 5) * MinInt(3, |recent|) as real < LastSum(Closes(recent), 3) * MinInt(5, |recent|) as real
  }

  lemma LeadsIff(recent: seq<Candle>, fast: real, slow: real)
    requires |recent| > 0
    requires fast * MinInt(3, |recent|) as real == LastSum(Closes(recent), 3)
    requires slow * MinInt(5, |recent|) as real == LastSum(Closes(recent), 5)
    ensures Leads(recent) <==> slow < fast
  {
    RatioOrder(slow, LastSum(Closes(recent), 5), MinInt(5, |recent|) as real,
               fast, LastSum(Closes(recent), 3), MinInt(3, |recent|) as real);
  }

  /** The last close above the average of three, without dividing. */
  predicate ClosesAbove(recent: seq<Candle>)
    requires |recent| > 0
  {
    LastSum(Closes(recent), 3) < recent[|recent| - 1].close * MinInt(3, |recent|) as real
  }

  lemma ClosesAboveIff(recent: seq<Candle>, fast: real)
    requires |recent| > 0 && fast == Average(Closes(LastN(recent, 3)))
    ensures ClosesAbove(recent) <==> fast < recent[|recent| - 1].close
  {
    LastAverageIs(recent, 3);
    BelowRatio(fast, LastSum(Closes(recent), 3), MinInt(3, |recent|) as real, recent[|recent| - 1].close);
  }

  lemma StrongIff(c: Candle)
    ensures StrongClose(c) <==> Strong(c)
  {
    var range := c.high - c.low;
    if range > 0.0 {
      DividedBack(c.close - c.low, range);
      TimesOrder(0.65, (c.close - c.low) / range, range);
    }
  }

  lemma VolumeOverAverage(volume: real, average: real, n: real, total: real, ratio: real)
    requires n > 0.0 && average > 0.0 && average * n == total
    ensures volume / average >= ratio <==> volume * n >= ratio * total
    ensures volume / average * total == volume * n
  {
    var x := volume / average;
    DividedBack(volume, average);
    assert x * total == x * (average * n) == (x * average) * n;
    TimesOrder(ratio, x, total);
  }

  /** The ratio of the last volume to the average before, times the sum before. */
  lemma VolumeRatioIs(recent: seq<Candle>, ratio: real)
    requires |recent| > 0
    ensures VolumeRatio(recent) >= ratio <==> Busy(recent, ratio)
    ensures var n := |recent| - 1; var before := SumReal(Volumes(recent[..n]));
      if before > 0.0 then VolumeRatio(recent) * before == recent[n].volume as real * n as real
      else VolumeRatio(recent) == 0.0
  {
    var n := |recent| - 1;
    var volumes := Volumes(recent[..n]);
    if n > 0 {
      AverageIs(volumes);
      if Average(volumes) > 0.0 {
        VolumeOverAverage(recent[n].volume as real, Average(volumes), n as real, SumReal(volumes), ratio);
      } else {
        TimesOrder(Average(volumes), 0.0, n as real);
      }
    }
  }

  lemma CountNext(bs: seq<bool>, b: bool)
    ensures Count(bs + [b]) == Count(bs) + AsOne(b)
  {
    assert (bs + [b])[..|bs|] == bs;
  }

  lemma CountOfFour(a: bool, b: bool, c: bool, d: bool)
    ensures Count([a, b, c, d]) == AsOne(a) + AsOne(b) + AsOne(c) + AsOne(d)
  {
    CountNext([], a);
    CountNext([] + [a], b);
    CountNext([] + [a] + [b], c);
    CountNext([] + [a] + [b] + [c], d);
    assert [] + [a] + [b] + [c] + [d] == [a, b, c, d];
  }

  lemma ConfirmationsAre(o: Options, recent: seq<Candle>, t: Tick)
    requires |recent| > 0
    ensures Confirmations(o, recent[|recent| - 1], t, VolumeRatio(recent)) == Signs(o, recent, t)
  {
    var last := recent[|recent| - 1];
    StrongIff(last);
    VolumeRatioIs(recent, o.minVolumeRatio);
    CountOfFour(StrongClose(last), VolumeRatio(recent) >= o.minVolumeRatio,
                t.quote.strength >= o.minExecutionStrength, t.price >= last.close);
  }

  lemma QuotesAreJudged(o: Options, t: Tick)
    ensures JudgeQuotes(o, t) == AgainstQuotes(o, t)
  {
    var q := t.quote;
    if 0.0 < q.bid <= q.ask {
      SpreadIff(q.ask, q.bid, o.maxSpreadPct);
    }
    if q.vwap.Some? && q.vwap.value > 0.0 {
      PremiumIff(t.price, q.vwap.value, o.maxVwapPremiumPct);
    }
  }

  lemma CandlesAreJudged(o: Options, recent: seq<Candle>, t: Tick)
    ensures JudgeCandles(o, recent, t) == AgainstCandles(o, recent, t)
  {
    if |recent| > 0 {
      var fast, slow := Average(Closes(LastN(recent, 3))), Average(Closes(LastN(recent, 5)));
      LastAverageIs(recent, 3);
      LastAverageIs(recent, 5);
      LeadsIff(recent, fast, slow);
      ClosesAboveIff(recent, fast);
      ConfirmationsAre(o, recent, t);
    }
  }

  predicate DecidedBy(d: Decision, against: Option<Refusal>) {
    if against.Some? then d == Refuse(against.value) else d.Enter?
  }

  /** It buys exactly when nothing speaks against it, judged without averages and
      percentages, and otherwise refuses for the first thing that does. */
  lemma DecidesByFirstReason(o: Options, s: StockState, now: int)
    ensures DecidedBy(Evaluate(o, s, now), Against(o, s, now))
  {
    if s.latest.Some? {
      QuotesAreJudged(o, s.latest.value);
      CandlesAreJudged(o, Looked(o, s), s.latest.value);
      if |s.completed| >= o.minCompletedCandles {
        assert Recent(s.completed, o.minCompletedCandles) == Looked(o, s);
      }
    }
  }

  /** What a decision to buy reports. */
  lemma EntryReports(o: Options, s: StockState, now: int)
    requires Evaluate(o, s, now).Enter?
    ensures var m, t, recent := Evaluate(o, s, now).metrics, s.latest.value, Looked(o, s);
      && |recent| > 0
      && m.fastSma == Average(Closes(LastN(recent, 3))) && m.slowSma == Average(Closes(LastN(recent, 5)))
      && m.volumeRatio == VolumeRatio(recent) && m.executionStrength == t.quote.strength
      && 0.0 < t.quote.bid <= t.quote.ask && m.spreadPct == SpreadPct(t.quote.ask, t.quote.bid)
      && t.quote.vwap.Some? && t.quote.vwap.value > 0.0 && m.vwapPremiumPct == PremiumPct(t.price, t.quote.vwap.value)
      && m.confirmations == Signs(o, recent, t)
  {
    assert Recent(s.completed, o.minCompletedCandles) == Looked(o, s);
    ConfirmationsAre(o, Looked(o, s), s.latest.value);
  }

  // ----- across the recording of ticks -----

  /** A halted or off-session tick stops buying at once, so that no earlier tick
      is bought on; only a late one is passed over, and then nothing changes. */
  lemma HaltStopsBuying(maxCandles: nat, o: Options, s: StockState, t: Tick, receivedAt: int, now: int)
    requires !t.regular
    ensures Evaluate(o, Record(maxCandles, s, t, receivedAt), now).Enter? <==>
            Late(s, t) && Evaluate(o, s, now).Enter?
  {
    if !Late(s, t) {
      assert Record(maxCandles, s, t, receivedAt).latest == Some(t);
    }
  }

  /** What is shown is what is kept: as many candles as there were minutes. */
  lemma CompletedCount(maxCandles: nat, ticks: seq<(Tick, int)>)
    ensures var minutes, s := Minutes(LogOf(ticks).regular), RecordAll(maxCandles, ticks);
      |s.completed| == if |minutes| == 0 then 0 else MinInt(maxCandles, |minutes| - 1)
  {
    TrackerAgreesWithGrouping(maxCandles, ticks);
    MinutesEnd(LogOf(ticks).regular);
  }

  lemma EnteringNeedsCandles(o: Options, s: StockState, now: int)
    requires Evaluate(o, s, now).Enter?
    ensures |s.completed| >= o.minCompletedCandles && |s.completed| > 0
  {
    DecidesByFirstReason(o, s, now);
  }

  /** Buying needs its full number of finished minutes since the last day reset,
      besides the one in progress. A tracker that keeps fewer candles than the
      decision asks for never buys. */
  lemma EnteringNeedsFinishedMinutes(maxCandles: nat, o: Options, ticks: seq<(Tick, int)>, now: int)
    requires Evaluate(o, RecordAll(maxCandles, ticks), now).Enter?
    ensures |Minutes(LogOf(ticks).regular)| >= o.minCompletedCandles + 1
    ensures maxCandles >= o.minCompletedCandles && maxCandles > 0
  {
    EnteringNeedsCandles(o, RecordAll(maxCandles, ticks), now);
    CompletedCount(maxCandles, ticks);
  }
}
