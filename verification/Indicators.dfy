/** Moving averages, relative strength and runs of rising candles. The methods
    are the loops of the program; the functions say what each entry is. */
module Indicators {
  import opened Numbers

  datatype Candle = Candle(date: int, open: real, high: real, low: real, close: real, volume: real)

  /** An entry of an indicator: absent before the first full window, and not a
      number where the program divides by a period of 0. */
  datatype Entry = Absent | NotANumber | Number(value: real)

  /** The sum of `xs[lo..hi]`. */
  function SumOf(xs: seq<real>, lo: nat, hi: nat): real
    requires lo <= hi <= |xs|
  {
    if lo == hi then 0.0 else SumOf(xs, lo, hi - 1) + xs[hi - 1]
  }

  // ----- simple moving average -----

  function SmaAt(xs: seq<real>, period: nat, i: nat): Entry
    requires i < |xs|
  {
    if i < period - 1 then Absent
    else if period == 0 then NotANumber
    else Number(SumOf(xs, i + 1 - period, i + 1) / period as real)
  }

  method CalculateSMA(prices: seq<real>, period: nat) returns (result: seq<Entry>)
    ensures |result| == |prices|
    ensures forall i :: 0 <= i < |prices| ==> result[i] == SmaAt(prices, period, i)
  {
    result := [];
    for i := 0 to |prices|
      invariant |result| == i
      invariant forall k :: 0 <= k < i ==> result[k] == SmaAt(prices, period, k)
    {
      if i < period - 1 {
        result := result + [Absent];
        continue;
      }
      var sum := 0.0;
      for j := i - period + 1 to i + 1
        invariant sum == SumOf(prices, i - period + 1, j)
      {
        sum := sum + prices[j];
      }
      result := result + [if period == 0 then NotANumber else Number(sum / period as real)];
    }
  }

  method CalculateAvgVolume(volumes: seq<real>, period: nat) returns (result: seq<Entry>)
    ensures |result| == |volumes|
    ensures forall i :: 0 <= i < |volumes| ==> result[i] == SmaAt(volumes, period, i)
  {
    result := CalculateSMA(volumes, period);
  }

  lemma {:induction false} SumOfWindow(xs: seq<real>, lo: nat, hi: nat)
    requires lo <= hi <= |xs|
    ensures SumOf(xs, lo, hi) == SumReal(xs[lo..hi])
  {
    if lo < hi {
      SumOfWindow(xs, lo, hi - 1);
      assert xs[lo..hi][..hi - lo - 1] == xs[lo..hi - 1];
    }
  }

  /** An average times its period is the sum of the last so many values; there is one
      from the first full window on. */
  lemma SmaIs(xs: seq<real>, period: nat, i: nat)
    requires i < |xs| && period >= 1
    ensures SmaAt(xs, period, i).Number? <==> i + 1 >= period
    ensures i + 1 >= period ==>
      SmaAt(xs, period, i).value * period as real == SumReal(xs[i + 1 - period..i + 1])
  {
    if i + 1 >= period {
      SumOfWindow(xs, i + 1 - period, i + 1);
      DividedBack(SumOf(xs, i + 1 - period, i + 1), period as real);
    }
  }

  lemma {:induction false} SumOfPrefix(xs: seq<real>, k: nat, lo: nat, hi: nat)
    requires lo <= hi <= k <= |xs|
    ensures SumOf(xs[..k], lo, hi) == SumOf(xs, lo, hi)
  {
    if lo < hi {
      SumOfPrefix(xs, k, lo, hi - 1);
    }
  }

  /** An average looks at no price after its own. */
  lemma SmaPrefix(xs: seq<real>, period: nat, k: nat, i: nat)
    requires i < k <= |xs|
    ensures SmaAt(xs[..k], period, i) == SmaAt(xs, period, i)
  {
    if i >= period - 1 {
      SumOfPrefix(xs, k, i + 1 - period, i + 1);
    }
  }

  lemma OneMore(x: real, n: nat)
    ensures x * (n + 1) as real == x * n as real + x
  {
  }

  lemma {:induction false} SumOfBounds(xs: seq<real>, lo: nat, hi: nat, low: real, high: real)
    requires lo <= hi <= |xs|
    requires forall j :: lo <= j < hi ==> low <= xs[j] <= high
    ensures low * (hi - lo) as real <= SumOf(xs, lo, hi) <= high * (hi - lo) as real
  {
    if lo < hi {
      SumOfBounds(xs, lo, hi - 1, low, high);
      OneMore(low, hi - 1 - lo);
      OneMore(high, hi - 1 - lo);
    }
  }

  lemma DivisionBounds(sum: real, n: nat, low: real, high: real)
    requires n >= 1 && low * n as real <= sum <= high * n as real
    ensures low <= sum / n as real <= high
  {
  }

  /** An average lies between the lowest and the highest value it averages. */
  lemma SmaIsBetween(xs: seq<real>, period: nat, i: nat, low: real, high: real)
    requires period >= 1 && period - 1 <= i < |xs|
    requires forall j :: i + 1 - period <= j <= i ==> low <= xs[j] <= high
    ensures low <= SmaAt(xs, period, i).value <= high
  {
    SumOfBounds(xs, i + 1 - period, i + 1, low, high);
    DivisionBounds(SumOf(xs, i + 1 - period, i + 1), period, low, high);
  }

  // ----- relative strength -----

  /** What the price rose, or fell, from entry i to entry i + 1. */
  function Gains(prices: seq<real>): seq<real> {
    seq(MaxInt(0, |prices| - 1), i requires 0 <= i < MaxInt(0, |prices| - 1) =>
      MaxReal(prices[i + 1] - prices[i], 0.0))
  }

  function Losses(prices: seq<real>): seq<real> {
    seq(MaxInt(0, |prices| - 1), i requires 0 <= i < MaxInt(0, |prices| - 1) =>
      MaxReal(prices[i] - prices[i + 1], 0.0))
  }

  /** The share of the gains in all movement, in percent; 100 without losses. */
  function Strength(gain: real, loss: real): real
    requires gain >= 0.0 && loss >= 0.0
  {
    if loss == 0.0 then 100.0 else 100.0 * gain / (gain + loss)
  }

  lemma {:induction false} SumOfNonNegative(xs: seq<real>, lo: nat, hi: nat)
    requires lo <= hi <= |xs| && forall j :: 0 <= j < |xs| ==> xs[j] >= 0.0
    ensures SumOf(xs, lo, hi) >= 0.0
  {
    if lo < hi {
      SumOfNonNegative(xs, lo, hi - 1);
    }
  }

  function WindowGain(prices: seq<real>, period: nat, i: nat): (g: real)
    requires 1 <= period <= i < |prices|
    ensures g >= 0.0
  {
    SumOfNonNegative(Gains(prices), i - period, i);
    SumOf(Gains(prices), i - period, i)
  }

  function WindowLoss(prices: seq<real>, period: nat, i: nat): (l: real)
    requires 1 <= period <= i < |prices|
    ensures l >= 0.0
  {
    SumOfNonNegative(Losses(prices), i - period, i);
    SumOf(Losses(prices), i - period, i)
  }

  /** The relative strength of the `period` moves up to entry i. */
  function RsiAt(prices: seq<real>, period: nat, i: nat): Entry
    requires i < |prices|
  {
    if i < period || i == 0 then Absent
    else if period == 0 then NotANumber
    else Number(Strength(WindowGain(prices, period, i), WindowLoss(prices, period, i)))
  }

  lemma DivideBoth(g: real, l: real, n: real)
    requires n > 0.0 && l > 0.0
    ensures l / n != 0.0 && (g / n) / (l / n) == g / l
  {
    assert (g / n) / (l / n) * (l / n) == g / n;
    assert g / l * (l / n) == g / n;
  }

  lemma RatioForm(g: real, l: real)
    requires g >= 0.0 && l > 0.0
    ensures 1.0 + g / l != 0.0 && 100.0 - 100.0 / (1.0 + g / l) == 100.0 * g / (g + l)
  {
    var r := g / l;
    assert r * l == g;
    assert (1.0 + r) * l == g + l;
    assert 100.0 / (1.0 + r) == 100.0 * l / (g + l);
    assert 100.0 * g / (g + l) + 100.0 * l / (g + l) == 100.0;
  }

  /** Averages and their ratio give the share of the gains. */
  method RelativeStrength(gain: real, loss: real, period: nat) returns (rsi: real)
    requires period >= 1 && gain >= 0.0 && loss >= 0.0
    ensures rsi == Strength(gain, loss)
  {
    var avgGain, avgLoss := gain / period as real, loss / period as real;
    if avgLoss == 0.0 {
      assert loss == avgLoss * period as real;
      return 100.0;
    }
    assert loss > 0.0;
    DivideBoth(gain, loss, period as real);
    RatioForm(gain, loss);
    var rs := avgGain / avgLoss;
    rsi := 100.0 - 100.0 / (1.0 + rs);
  }

  /** One entry of the second loop: sums over the window, then the ratio. */
  method StrengthOfWindow(gains: seq<real>, losses: seq<real>, period: nat, i: nat) returns (entry: Entry)
    requires |gains| == |losses| && i < |gains| && period <= i + 1
    requires forall k :: 0 <= k < |gains| ==> gains[k] >= 0.0 && losses[k] >= 0.0
    ensures period == 0 ==> entry == NotANumber
    ensures var gain, loss := SumOf(gains, i + 1 - period, i + 1), SumOf(losses, i + 1 - period, i + 1);
      period >= 1 ==> gain >= 0.0 && loss >= 0.0 && entry == Number(Strength(gain, loss))
  {
    var gain, loss := 0.0, 0.0;
    for j := i - period + 1 to i + 1
      invariant gain == SumOf(gains, i - period + 1, j) && loss == SumOf(losses, i - period + 1, j)
    {
      gain := gain + gains[j];
      loss := loss + losses[j];
    }
    if period == 0 {
      return NotANumber;
    }
    SumOfNonNegative(gains, i + 1 - period, i + 1);
    SumOfNonNegative(losses, i + 1 - period, i + 1);
    var rsi := RelativeStrength(gain, loss, period);
    entry := Number(rsi);
  }

  /** The first loop: moves up and moves down. */
  method MovesOf(prices: seq<real>) returns (gains: seq<real>, losses: seq<real>)
    ensures gains == Gains(prices) && losses == Losses(prices)
  {
    gains, losses := [], [];
    if |prices| == 0 {
      return;
    }
    for i := 1 to |prices|
      invariant |gains| == |losses| == i - 1
      invariant forall k :: 0 <= k < i - 1 ==> gains[k] == Gains(prices)[k] && losses[k] == Losses(prices)[k]
    {
      var change := prices[i] - prices[i - 1];
      gains := gains + [if change > 0.0 then change else 0.0];
      losses := losses + [if change < 0.0 then -change else 0.0];
    }
  }

  method CalculateRSI(prices: seq<real>, period: nat) returns (result: seq<Entry>)
    ensures |result| == |prices|
    ensures forall i :: 0 <= i < |prices| ==> result[i] == RsiAt(prices, period, i)
  {
    if |prices| < period + 1 {
      return seq(|prices|, _ => Absent);
    }
    result := [Absent];
    var gains, losses := MovesOf(prices);
    for i := 0 to |gains|
      invariant |result| == i + 1
      invariant forall k :: 0 <= k <= i ==> result[k] == RsiAt(prices, period, k)
    {
      if i < period - 1 {
        result := result + [Absent];
        continue;
      }
      var entry := StrengthOfWindow(gains, losses, period, i);
      result := result + [entry];
    }
  }

  /** What prices rose by on the way, and what they fell by. */
  function Rise(prices: seq<real>): real {
    var n := |prices| - 1;
    if n < 1 then 0.0
    else Rise(prices[..n]) + (if prices[n] > prices[n - 1] then prices[n] - prices[n - 1] else 0.0)
  }

  function Fall(prices: seq<real>): real {
    var n := |prices| - 1;
    if n < 1 then 0.0
    else Fall(prices[..n]) + (if prices[n] < prices[n - 1] then prices[n - 1] - prices[n] else 0.0)
  }

  lemma WindowEnds(prices: seq<real>, lo: nat, hi: nat)
    requires lo < hi < |prices|
    ensures var window := prices[lo..hi + 1];
      window[..hi - lo] == prices[lo..hi] && window[hi - lo] == prices[hi] && window[hi - lo - 1] == prices[hi - 1]
  {
  }

  lemma {:induction false} WindowIsRise(prices: seq<real>, lo: nat, hi: nat)
    requires lo <= hi < |prices|
    ensures SumOf(Gains(prices), lo, hi) == Rise(prices[lo..hi + 1])
  {
    if lo < hi {
      WindowIsRise(prices, lo, hi - 1);
      WindowEnds(prices, lo, hi);
    }
  }

  lemma {:induction false} WindowIsFall(prices: seq<real>, lo: nat, hi: nat)
    requires lo <= hi < |prices|
    ensures SumOf(Losses(prices), lo, hi) == Fall(prices[lo..hi + 1])
  {
    if lo < hi {
      WindowIsFall(prices, lo, hi - 1);
      WindowEnds(prices, lo, hi);
    }
  }

  /** Relative strength is what the prices of its window rose by, in percent of all they
      moved; 100 if they never fell. There is one from the first full window on. */
  lemma RsiIs(prices: seq<real>, period: nat, i: nat)
    requires i < |prices| && period >= 1
    ensures RsiAt(prices, period, i).Number? <==> i >= period
    ensures i >= period ==>
      var v, window := RsiAt(prices, period, i).value, prices[i - period..i + 1];
      var rise, fall := Rise(window), Fall(window);
      if fall == 0.0 then v == 100.0 else v * (rise + fall) == 100.0 * rise
  {
    if i >= period {
      WindowIsRise(prices, i - period, i);
      WindowIsFall(prices, i - period, i);
      var gain, loss := WindowGain(prices, period, i), WindowLoss(prices, period, i);
      if loss != 0.0 {
        assert 100.0 * gain / (gain + loss) * (gain + loss) == 100.0 * gain;
      }
    }
  }

  lemma StrengthRange(gain: real, loss: real)
    requires gain >= 0.0 && loss >= 0.0
    ensures 0.0 <= Strength(gain, loss) <= 100.0
    ensures Strength(gain, loss) == 100.0 <==> loss == 0.0
    ensures Strength(gain, loss) == 0.0 <==> gain == 0.0 && loss > 0.0
  {
    if loss > 0.0 {
      var s := Strength(gain, loss);
      assert s * (gain + loss) == 100.0 * gain;
    }
  }

  /** Relative strength stays within 0 and 100; it is 100 exactly without a loss
      in its window and 0 exactly with losses only. */
  lemma RsiRange(prices: seq<real>, period: nat, i: nat)
    requires 1 <= period <= i < |prices|
    ensures 0.0 <= RsiAt(prices, period, i).value <= 100.0
    ensures RsiAt(prices, period, i) == Number(100.0) <==> WindowLoss(prices, period, i) == 0.0
    ensures RsiAt(prices, period, i) == Number(0.0) <==>
            WindowGain(prices, period, i) == 0.0 && WindowLoss(prices, period, i) > 0.0
  {
    StrengthRange(WindowGain(prices, period, i), WindowLoss(prices, period, i));
  }

  /** Relative strength looks at no price after its own, even when the prefix is
      too short to have any. */
  lemma RsiPrefix(prices: seq<real>, period: nat, k: nat, i: nat)
    requires i < k <= |prices|
    ensures RsiAt(prices[..k], period, i) == RsiAt(prices, period, i)
  {
    if i >= period >= 1 {
      assert Gains(prices[..k]) == Gains(prices)[..k - 1];
      assert Losses(prices[..k]) == Losses(prices)[..k - 1];
      SumOfPrefix(Gains(prices), k - 1, i - period, i);
      SumOfPrefix(Losses(prices), k - 1, i - period, i);
    }
  }

  // ----- runs of rising candles -----

  predicate Up(c: Candle) { c.close > c.open }

  /** `n` candles up to entry i rise, and the one before them does not. */
  ghost predicate IsUpRun(candles: seq<Candle>, i: int, n: int)
    requires i < |candles|
  {
    && 0 <= n <= MaxInt(0, i + 1)
    && (forall j :: i - n < j <= i ==> candles[j].close > candles[j].open)
    && (i - n >= 0 ==> candles[i - n].close <= candles[i - n].open)
  }

  function UpRun(candles: seq<Candle>, i: int): (n: nat)
    requires i < |candles|
    ensures IsUpRun(candles, i, n)
    decreases i + 1
  {
    if i < 0 || !Up(candles[i]) then 0 else UpRun(candles, i - 1) + 1
  }

  method CountConsecutiveUpCandles(candles: seq<Candle>, fromIndex: int) returns (count: nat)
    requires fromIndex < |candles|
    ensures count == UpRun(candles, fromIndex)
  {
    count := 0;
    var i := fromIndex;
    while i >= 0
      invariant i < |candles| && (fromIndex >= 0 ==> -1 <= i) && (fromIndex < 0 ==> i == fromIndex)
      invariant UpRun(candles, fromIndex) == count + UpRun(candles, i)
      decreases i
    {
      if candles[i].close > candles[i].open {
        count := count + 1;
      } else {
        break;
      }
      i := i - 1;
    }
  }

  /** The run ends where it ends: no other number fits. */
  lemma UpRunIsUnique(candles: seq<Candle>, i: int, n: int)
    requires i < |candles| && IsUpRun(candles, i, n)
    ensures n == UpRun(candles, i)
  {
  }

  lemma UpRunPrefix(candles: seq<Candle>, k: nat, i: int)
    requires i < k <= |candles|
    ensures UpRun(candles[..k], i) == UpRun(candles, i)
  {
    UpRunIsUnique(candles, i, UpRun(candles[..k], i));
  }
}
