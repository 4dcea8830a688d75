/** Splitting a budget by inverse volatility: clamped weights, floored shares,
    and the remainder for the last candidate. */
module WeightedSplit {
  import opened Numbers

  const WEIGHT_MIN := 0.5
  const WEIGHT_MAX := 2.0
  const FALLBACK_VOLATILITY_PCT := 3.0
  const VOLATILITY_FLOOR := 0.5

  function SumInt(s: seq<int>): int {
    if |s| == 0 then 0 else SumInt(s[..|s| - 1]) + s[|s| - 1]
  }

  predicate AllAtLeast(s: seq<real>, lo: real) { forall i :: 0 <= i < |s| ==> s[i] >= lo }

  predicate AllAtMost(s: seq<real>, hi: real) { forall i :: 0 <= i < |s| ==> s[i] <= hi }

  predicate AllPositive(s: seq<real>) { forall i :: 0 <= i < |s| ==> s[i] > 0.0 }

  function Volatility(pct: Option<real>): real {
    MaxReal(if pct.Some? then pct.value else FALLBACK_VOLATILITY_PCT, VOLATILITY_FLOOR)
  }

  /** One over each volatility; none is below the floor. */
  function Inverses(vols: seq<real>): (inv: seq<real>)
    requires AllAtLeast(vols, VOLATILITY_FLOOR)
    ensures |inv| == |vols|
    ensures forall i :: 0 <= i < |vols| ==> inv[i] == 1.0 / vols[i] && inv[i] > 0.0
  {
    seq(|vols|, i requires 0 <= i < |vols| => 1.0 / vols[i])
  }

  function Clamp(w: real): real { MaxReal(WEIGHT_MIN, MinReal(WEIGHT_MAX, w)) }

  lemma {:induction false} SumIsPositive(s: seq<real>)
    requires AllPositive(s)
    ensures SumReal(s) >= 0.0 && (|s| > 0 ==> SumReal(s) > 0.0)
  {
    if |s| > 0 {
      SumIsPositive(s[..|s| - 1]);
    }
  }

  /** Inverse volatility over its mean, clamped. */
  function Weight(inv: real, sumInv: real, n: nat): real
    requires sumInv > 0.0
  {
    Clamp(inv / sumInv * n as real)
  }

  function Weights(vols: seq<real>): (ws: seq<real>)
    requires |vols| > 0 && AllAtLeast(vols, VOLATILITY_FLOOR)
    ensures |ws| == |vols|
    ensures forall i :: 0 <= i < |ws| ==> WEIGHT_MIN <= ws[i] <= WEIGHT_MAX
    ensures SumReal(Inverses(vols)) > 0.0
    ensures forall i :: 0 <= i < |ws| ==> ws[i] == Weight(1.0 / vols[i], SumReal(Inverses(vols)), |vols|)
  {
    SumIsPositive(Inverses(vols));
    var sum := SumReal(Inverses(vols));
    seq(|vols|, i requires 0 <= i < |vols| => Weight(Inverses(vols)[i], sum, |vols|))
  }

  function Share(budget: real, w: real, total: real): real
    requires total > 0.0
  {
    budget * w / total
  }

  function Floors(budget: real, ws: seq<real>, total: real): (fs: seq<int>)
    requires total > 0.0
    ensures |fs| == |ws|
    ensures forall i :: 0 <= i < |ws| ==> fs[i] == Floor(Share(budget, ws[i], total))
  {
    seq(|ws|, i requires 0 <= i < |ws| => Floor(Share(budget, ws[i], total)))
  }

  /** All but the last get their floored share, the last what is left. */
  function Amounts(budget: real, ws: seq<real>): (amounts: seq<int>)
    requires |ws| > 0 && SumReal(ws) > 0.0
    ensures |amounts| == |ws|
  {
    var floors := Floors(budget, ws[..|ws| - 1], SumReal(ws));
    floors + [Floor(budget) - SumInt(floors)]
  }

  // ----- what a weight is -----

  /** The weight times its load is `n`, unless that would take it out of one half to
      two; it is two, or one half, exactly from there on. */
  predicate Proportioned(w: real, load: real, n: real) {
    && (0.5 < w < 2.0 ==> w * load == n)
    && (w == 2.0 <==> n >= 2.0 * load)
    && (w == 0.5 <==> n <= 0.5 * load)
  }

  lemma TimesBoth(x: real, y: real, k: real)
    requires x == y
    ensures x * k == y * k
  {
  }

  lemma Products(part: real, inv: real, vol: real, sum: real, n: real, load: real)
    requires part * sum == inv && inv * vol == 1.0 && load == vol * sum
    ensures part * n * load == n
  {
    TimesBoth(part * sum, inv, vol);
    assert part * load == 1.0;
    TimesBoth(part * load, 1.0, n);
  }

  lemma RawWeight(vol: real, sum: real, n: real, load: real, raw: real)
    requires vol > 0.0 && sum > 0.0 && load == vol * sum && raw == (1.0 / vol) / sum * n
    ensures raw * load == n
  {
    var inv := 1.0 / vol;
    var part := inv / sum;
    DividedBack(1.0, vol);
    DividedBack(inv, sum);
    assert raw == part * n;
    Products(part, inv, vol, sum, n, load);
  }

  lemma ClampIs(raw: real, load: real, n: real)
    requires load > 0.0 && raw * load == n
    ensures Proportioned(Clamp(raw), load, n)
  {
    if raw >= 2.0 {
      assert raw * load >= 2.0 * load;
    } else {
      assert raw * load < 2.0 * load;
    }
    if raw <= 0.5 {
      assert raw * load <= 0.5 * load;
    } else {
      assert raw * load > 0.5 * load;
    }
  }

  lemma LoadIsPositive(vol: real, sum: real)
    requires vol > 0.0 && sum > 0.0
    ensures vol * sum > 0.0
  {
  }

  lemma RawLoaded(vol: real, sum: real, n: nat, load: real, inv: real, raw: real)
    requires vol > 0.0 && sum > 0.0 && load == vol * sum && inv == 1.0 / vol && raw == inv / sum * n as real
    ensures load > 0.0 && raw * load == n as real
  {
    LoadIsPositive(vol, sum);
    RawWeight(vol, sum, n as real, load, raw);
  }

  lemma ClampedLoaded(inv: real, sum: real, n: nat, load: real, raw: real)
    requires sum > 0.0 && load > 0.0 && raw == inv / sum * n as real && raw * load == n as real
    ensures Proportioned(Weight(inv, sum, n), load, n as real)
  {
    ClampIs(raw, load, n as real);
    assert Weight(inv, sum, n) == Clamp(raw);
  }

  lemma WeightLoaded(vol: real, sum: real, n: nat, load: real, inv: real, raw: real)
    requires vol > 0.0 && sum > 0.0 && load == vol * sum && inv == 1.0 / vol && raw == inv / sum * n as real
    ensures load > 0.0 && Proportioned(Weight(inv, sum, n), load, n as real)
  {
    RawLoaded(vol, sum, n, load, inv, raw);
    ClampedLoaded(inv, sum, n, load, raw);
  }

  /** The weight before it is clamped. */
  function Unclamped(inv: real, sum: real, n: nat): real
    requires sum > 0.0
  {
    inv / sum * n as real
  }

  lemma WeightOfVolatility(vol: real, sum: real, n: nat, load: real, inv: real)
    requires vol > 0.0 && sum > 0.0 && load == vol * sum && inv == 1.0 / vol
    ensures load > 0.0 && Proportioned(Weight(inv, sum, n), load, n as real)
  {
    WeightLoaded(vol, sum, n, load, inv, Unclamped(inv, sum, n));
  }

  /** What a weight is loaded with: its volatility times the sum of the inverses. */
  function Load(vols: seq<real>, i: nat): real
    requires i < |vols| && AllAtLeast(vols, VOLATILITY_FLOOR)
  {
    vols[i] * SumReal(Inverses(vols))
  }

  /** Within its bounds a weight is in inverse proportion to its volatility: times it,
      times the sum of the inverses, it is the number of candidates. */
  lemma WeightIs(vols: seq<real>, i: nat, w: real, load: real)
    requires i < |vols| && AllAtLeast(vols, VOLATILITY_FLOOR) && w == Weights(vols)[i] && load == Load(vols, i)
    ensures load > 0.0 && Proportioned(w, load, |vols| as real)
  {
    SumIsPositive(Inverses(vols));
    WeightOfVolatility(vols[i], SumReal(Inverses(vols)), |vols|, load, 1.0 / vols[i]);
  }

  lemma SameLoad(w: real, w': real, vol: real, vol': real, sum: real, load: real, load': real)
    requires sum > 0.0 && 0.0 < vol < vol' && w' > 0.0
    requires load == vol * sum && load' == vol' * sum && w * load == w' * load'
    ensures w * vol == w' * vol' && w > w'
  {
    assert (w * vol) * sum == (w' * vol') * sum;
    assert w * vol == w' * vol';
    assert w' * vol < w' * vol';
  }

  lemma ProportionedAlike(w: real, w': real, load: real, load': real, n: real)
    requires Proportioned(w, load, n) && Proportioned(w', load', n) && 0.5 < w < 2.0 && 0.5 < w' < 2.0
    ensures w * load == w' * load'
  {
  }

  lemma LoadIs(vols: seq<real>, i: nat, vol: real, sum: real, load: real)
    requires i < |vols| && AllAtLeast(vols, VOLATILITY_FLOOR)
    requires vol == vols[i] && sum == SumReal(Inverses(vols)) && load == Load(vols, i)
    ensures vol > 0.0 && load == vol * sum
  {
  }

  lemma CalmerInProportion(w: real, w': real, vol: real, vol': real, sum: real, n: real, load: real, load': real)
    requires sum > 0.0 && 0.0 < vol < vol' && load == vol * sum && load' == vol' * sum
    requires 0.5 < w < 2.0 && 0.5 < w' < 2.0 && Proportioned(w, load, n) && Proportioned(w', load', n)
    ensures w > w' && w * vol == w' * vol'
  {
    ProportionedAlike(w, w', load, load', n);
    SameLoad(w, w', vol, vol', sum, load, load');
  }

  /** So of two candidates whose weights are within the bounds the calmer weighs
      strictly more, in inverse proportion. */
  lemma CalmerWeighsMore(vols: seq<real>, i: nat, j: nat, w: real, w': real, vol: real, vol': real)
    requires i < |vols| && j < |vols| && AllAtLeast(vols, VOLATILITY_FLOOR)
    requires vol == vols[i] < vols[j] == vol'
    requires w == Weights(vols)[i] && w' == Weights(vols)[j] && 0.5 < w < 2.0 && 0.5 < w' < 2.0
    ensures w > w' && w * vol == w' * vol'
  {
    var load, load', sum := Load(vols, i), Load(vols, j), SumReal(Inverses(vols));
    WeightIs(vols, i, w, load);
    WeightIs(vols, j, w', load');
    SumIsPositive(Inverses(vols));
    LoadIs(vols, i, vol, sum, load);
    LoadIs(vols, j, vol', sum, load');
    CalmerInProportion(w, w', vol, vol', sum, |vols| as real, load, load');
  }

  /** A volatility that is not known counts as three percent, one below a half as a
      half, any other as it is. */
  lemma VolatilityIs(pct: Option<real>)
    ensures pct.None? ==> Volatility(pct) == 3.0
    ensures pct.Some? && pct.value >= 0.5 ==> Volatility(pct) == pct.value
    ensures pct.Some? && pct.value < 0.5 ==> Volatility(pct) == 0.5
  {
  }

  // ----- bounds -----

  /** `n` is how many whole times `total` fits into `x`. */
  predicate WholePart(n: int, total: real, x: real) {
    n as real * total <= x < (n as real + 1.0) * total
  }

  lemma QuotientAtLeast(x: real, k: real, total: real)
    requires total > 0.0 && x >= k * total
    ensures x / total >= k
  {
  }

  lemma QuotientBelow(x: real, k: real, total: real)
    requires total > 0.0 && x < k * total
    ensures x / total < k
  {
  }

  lemma FloorIsWholePart(x: real, total: real)
    requires total > 0.0
    ensures WholePart(Floor(x / total), total, x)
  {
    var n := Floor(x / total) as real;
    if x < n * total {
      QuotientBelow(x, n, total);
    }
    if x >= (n + 1.0) * total {
      QuotientAtLeast(x, n + 1.0, total);
    }
  }

  lemma ShareIsWholePart(budget: real, w: real, total: real, x: real)
    requires total > 0.0 && x == budget * w
    ensures WholePart(Floor(Share(budget, w, total)), total, x)
  {
    FloorIsWholePart(x, total);
  }

  /** Everyone but the last gets the whole won in the part of the budget that its
      weight is of all weights. */
  lemma AmountIsShare(budget: real, ws: seq<real>, i: nat, total: real, weighted: real)
    requires total == SumReal(ws) > 0.0 && i < |ws| - 1 && weighted == budget * ws[i]
    ensures WholePart(Amounts(budget, ws)[i], total, weighted)
  {
    ShareIsWholePart(budget, ws[i], total, weighted);
  }

  /** The amounts are an exact split of the whole won in the budget. */
  lemma AmountsAreExact(budget: real, ws: seq<real>)
    requires |ws| > 0 && SumReal(ws) > 0.0
    ensures SumInt(Amounts(budget, ws)) == Floor(budget)
  {
    var floors := Floors(budget, ws[..|ws| - 1], SumReal(ws));
    assert Amounts(budget, ws)[..|ws| - 1] == floors;
  }

  lemma ShareAdds(budget: real, a: real, b: real, total: real)
    requires total > 0.0
    ensures Share(budget, a, total) + Share(budget, b, total) == Share(budget, a + b, total)
  {
    assert budget * a + budget * b == budget * (a + b);
  }

  /** Flooring loses less than one won per share. */
  lemma {:induction false} FloorsNearShares(budget: real, ws: seq<real>, total: real)
    requires total > 0.0
    ensures var sum := SumInt(Floors(budget, ws, total)) as real;
      sum <= Share(budget, SumReal(ws), total) <= sum + |ws| as real
  {
    if |ws| == 0 {
      assert Share(budget, 0.0, total) == 0.0;
    } else {
      var init, w := ws[..|ws| - 1], ws[|ws| - 1];
      FloorsNearShares(budget, init, total);
      assert Floors(budget, ws, total)[..|ws| - 1] == Floors(budget, init, total);
      ShareAdds(budget, SumReal(init), w, total);
      var f := Floor(Share(budget, w, total));
    }
  }

  /** The last amount is its own share plus what flooring left over: never less
      than the share, and at most n - 1 won more. */
  lemma LastTakesRemainder(budget: int, ws: seq<real>)
    requires |ws| > 0 && SumReal(ws) > 0.0
    ensures var n := |ws|;
      var last, share := Amounts(budget as real, ws)[n - 1] as real, Share(budget as real, ws[n - 1], SumReal(ws));
      share <= last <= share + (n - 1) as real
  {
    var n, total := |ws|, SumReal(ws);
    var init := ws[..n - 1];
    FloorsNearShares(budget as real, init, total);
    ShareAdds(budget as real, SumReal(init), ws[n - 1], total);
    assert Share(budget as real, total, total) == budget as real;
    assert Floor(budget as real) == budget;
  }

  /** Neither a floored share nor the remainder is negative, whatever fraction of
      a won the budget has. */
  lemma AmountsAreNonNegative(budget: real, ws: seq<real>)
    requires |ws| > 0 && budget >= 0.0 && AllPositive(ws)
    ensures SumReal(ws) > 0.0
    ensures forall i :: 0 <= i < |ws| ==> Amounts(budget, ws)[i] >= 0
  {
    SumIsPositive(ws);
    var n, total := |ws|, SumReal(ws);
    forall i | 0 <= i < n - 1 ensures Amounts(budget, ws)[i] >= 0 {
      ShareNonNegative(budget, ws[i], total);
    }
    RemainderIsNonNegative(budget, ws);
  }

  lemma RemainderIsNonNegative(budget: real, ws: seq<real>)
    requires |ws| > 0 && budget >= 0.0 && SumReal(ws) > 0.0 && ws[|ws| - 1] > 0.0
    ensures Amounts(budget, ws)[|ws| - 1] >= 0
  {
    var init, total := ws[..|ws| - 1], SumReal(ws);
    FloorsNearShares(budget, init, total);
    ShareGrows(budget, SumReal(init), total, total);
    WholeShare(budget, total);
  }

  lemma WholeShare(budget: real, total: real)
    requires total > 0.0
    ensures Share(budget, total, total) == budget
  {
  }

  lemma ShareNonNegative(budget: real, w: real, total: real)
    requires total > 0.0 && budget >= 0.0 && w >= 0.0
    ensures Share(budget, w, total) >= 0.0
  {
    assert budget * w >= 0.0;
  }

  lemma ShareGrows(budget: real, a: real, b: real, total: real)
    requires total > 0.0 && budget >= 0.0 && a <= b
    ensures Share(budget, a, total) <= Share(budget, b, total)
  {
    ShareAdds(budget, a, b - a, total);
    ShareNonNegative(budget, b - a, total);
  }

  lemma {:induction false} SumAtMost(ws: seq<real>, i: nat)
    requires i < |ws| && AllAtMost(ws, WEIGHT_MAX)
    ensures SumReal(ws) <= ws[i] + WEIGHT_MAX * (|ws| - 1) as real
  {
    var n := |ws| - 1;
    if i < n {
      SumAtMost(ws[..n], i);
    } else {
      SumAtMostAll(ws[..n]);
    }
  }

  lemma {:induction false} SumAtMostAll(ws: seq<real>)
    requires AllAtMost(ws, WEIGHT_MAX)
    ensures SumReal(ws) <= WEIGHT_MAX * |ws| as real
  {
    if |ws| > 0 {
      SumAtMostAll(ws[..|ws| - 1]);
    }
  }

  /** A weight of at least half against others of at most two: one share is at
      least one part in 4n - 3. */
  lemma FractionBound(budget: real, w: real, total: real, n: nat)
    requires n >= 1 && budget >= 0.0 && WEIGHT_MIN <= w && 0.0 < total <= w + WEIGHT_MAX * (n - 1) as real
    ensures budget / (4 * n - 3) as real <= Share(budget, w, total)
  {
    var parts := (4 * n - 3) as real;
    assert parts == 1.0 + 4.0 * (n - 1) as real;
    assert w * parts == w + 4.0 * w * (n - 1) as real;
    assert 4.0 * w >= WEIGHT_MAX;
    assert 4.0 * w * (n - 1) as real >= WEIGHT_MAX * (n - 1) as real;
    assert total <= w * parts;
    var unit := budget / parts;
    assert unit * parts == budget;
    assert unit >= 0.0;
    assert unit * total <= unit * (w * parts);
    assert unit * (w * parts) == (unit * parts) * w;
    assert budget * w / total >= unit * total / total;
  }

  lemma FloorMonotone(x: real, y: real)
    requires x <= y
    ensures Floor(x) <= Floor(y)
  {
  }

  /** Everyone gets at least one part in 4n - 3 of the budget, in whole won. */
  lemma EveryoneGetsAPart(budget: int, vols: seq<real>, i: nat)
    requires 0 <= budget && i < |vols| && AllAtLeast(vols, VOLATILITY_FLOOR)
    ensures var ws := Weights(vols);
      SumReal(ws) > 0.0 && Amounts(budget as real, ws)[i] >= Floor(budget as real / (4 * |vols| - 3) as real)
  {
    var ws, n := Weights(vols), |vols|;
    SumIsPositive(ws);
    SumAtMost(ws, i);
    FractionBound(budget as real, ws[i], SumReal(ws), n);
    FloorMonotone(budget as real / (4 * n - 3) as real, Share(budget as real, ws[i], SumReal(ws)));
    if i == n - 1 {
      LastTakesRemainder(budget, ws);
    }
  }

  lemma InverseOrder(a: real, b: real)
    requires 0.0 < a <= b
    ensures 1.0 / b <= 1.0 / a
  {
    assert 1.0 / a - 1.0 / b == (b - a) / (a * b);
  }

  lemma Scaled(x: real, y: real, k: real)
    requires x <= y && k >= 0.0
    ensures x * k <= y * k
  {
  }

  lemma Divided(x: real, y: real, k: real)
    requires x <= y && k > 0.0
    ensures x / k <= y / k
  {
  }

  lemma ClampedOrder(a: real, b: real, sum: real, n: nat)
    requires sum > 0.0 && a / sum * n as real <= b / sum * n as real
    ensures Weight(a, sum, n) <= Weight(b, sum, n)
  {
  }

  lemma RawOrder(a: real, b: real, sum: real, n: real)
    requires sum > 0.0 && a <= b && n >= 0.0
    ensures a / sum * n <= b / sum * n
  {
    Divided(a, b, sum);
    Scaled(a / sum, b / sum, n);
  }

  lemma WeightOrder(a: real, b: real, sum: real, n: nat)
    requires sum > 0.0 && a <= b
    ensures Weight(a, sum, n) <= Weight(b, sum, n)
  {
    RawOrder(a, b, sum, n as real);
    ClampedOrder(a, b, sum, n);
  }

  /** Among all but the last, lower volatility never gets less. */
  lemma CalmerGetsNoLess(budget: real, vols: seq<real>, i: nat, j: nat)
    requires budget >= 0.0 && AllAtLeast(vols, VOLATILITY_FLOOR)
    requires i < |vols| - 1 && j < |vols| - 1 && vols[i] <= vols[j]
    ensures var ws := Weights(vols);
      SumReal(ws) > 0.0 && Amounts(budget, ws)[j] <= Amounts(budget, ws)[i]
  {
    var ws := Weights(vols);
    SumIsPositive(ws);
    InverseOrder(vols[i], vols[j]);
    WeightOrder(1.0 / vols[j], 1.0 / vols[i], SumReal(Inverses(vols)), |vols|);
    ShareGrows(budget, ws[j], ws[i], SumReal(ws));
    FloorMonotone(Share(budget, ws[j], SumReal(ws)), Share(budget, ws[i], SumReal(ws)));
  }
}
