/** The scanner's budget: reserve what each candidate needs for one share, then
    spread the rest by inverse volatility. */
module Allocation {
  import opened Numbers
  import opened WeightedSplit
  import TradeMeta
  import Position
  import Trading

  datatype Scan = Scan(
    code: string, strategyId: string, variant: Option<string>,
    volatilityPct: Option<real>, latestPrice: Option<real>)

  function Codes(cs: seq<Scan>): (codes: seq<string>)
    ensures |codes| == |cs| && forall i :: 0 <= i < |cs| ==> codes[i] == cs[i].code
  {
    seq(|cs|, i requires 0 <= i < |cs| => cs[i].code)
  }

  ghost predicate Distinct(cs: seq<Scan>) {
    forall i, j :: 0 <= i < j < |cs| ==> cs[i].code != cs[j].code
  }

  function Volatilities(cs: seq<Scan>): (vols: seq<real>)
    ensures |vols| == |cs| && AllAtLeast(vols, VOLATILITY_FLOOR)
  {
    seq(|cs|, i requires 0 <= i < |cs| => Volatility(cs[i].volatilityPct))
  }

  lemma WeightsSumPositive(vols: seq<real>)
    requires |vols| > 0 && AllAtLeast(vols, VOLATILITY_FLOOR)
    ensures SumReal(Weights(vols)) > 0.0
  {
    SumIsPositive(Weights(vols));
  }

  /** What each candidate gets, in order; nothing when there is no budget. */
  function Split(cs: seq<Scan>, budget: real): (amounts: seq<int>)
    ensures |amounts| == |cs|
  {
    if |cs| == 0 || budget <= 0.0 then seq(|cs|, i => 0)
    else
      WeightsSumPositive(Volatilities(cs));
      Amounts(budget, Weights(Volatilities(cs)))
  }

  function Get(m: map<string, int>, code: string): int { if code in m then m[code] else 0 }

  /** The map that setting each candidate's amount in turn leaves: the last one of
      a repeated code wins. */
  function MapOf(cs: seq<Scan>, amounts: seq<int>): map<string, int>
    requires |cs| == |amounts|
  {
    if |cs| == 0 then map[]
    else MapOf(cs[..|cs| - 1], amounts[..|cs| - 1])[cs[|cs| - 1].code := amounts[|cs| - 1]]
  }

  lemma MapOfNext(cs: seq<Scan>, amounts: seq<int>, i: nat)
    requires i < |cs| == |amounts|
    ensures MapOf(cs[..i + 1], amounts[..i + 1]) == MapOf(cs[..i], amounts[..i])[cs[i].code := amounts[i]]
  {
    assert cs[..i + 1][..i] == cs[..i] && amounts[..i + 1][..i] == amounts[..i];
  }

  lemma MapOfAppend(cs: seq<Scan>, amounts: seq<int>, c: Scan, amount: int)
    requires |cs| == |amounts|
    ensures MapOf(cs + [c], amounts + [amount]) == MapOf(cs, amounts)[c.code := amount]
  {
    assert (cs + [c])[..|cs|] == cs && (amounts + [amount])[..|cs|] == amounts;
  }

  /** With distinct codes everyone's amount is in the map. */
  lemma {:induction false} MapOfDistinct(cs: seq<Scan>, amounts: seq<int>, i: nat)
    requires i < |cs| == |amounts| && Distinct(cs)
    ensures cs[i].code in MapOf(cs, amounts) && MapOf(cs, amounts)[cs[i].code] == amounts[i]
  {
    if i < |cs| - 1 {
      MapOfDistinct(cs[..|cs| - 1], amounts[..|cs| - 1], i);
    }
  }

  lemma {:induction false} MapOfKeys(cs: seq<Scan>, amounts: seq<int>)
    requires |cs| == |amounts|
    ensures MapOf(cs, amounts).Keys == (set i | 0 <= i < |cs| :: cs[i].code)
  {
    if |cs| > 0 {
      MapOfKeys(cs[..|cs| - 1], amounts[..|cs| - 1]);
    }
  }

  method ComputeWeights(vols: seq<real>) returns (weights: seq<real>)
    requires |vols| > 0 && AllAtLeast(vols, VOLATILITY_FLOOR)
    ensures weights == Weights(vols)
  {
    var invVols := Inverses(vols);
    SumIsPositive(invVols);
    var sumInv := SumReal(invVols);
    weights := [];
    for i := 0 to |vols|
      invariant weights == Weights(vols)[..i]
    {
      weights := weights + [Weight(invVols[i], sumInv, |vols|)];
    }
  }

  /** One running remainder, which the last candidate takes. */
  method SpreadByWeights(cs: seq<Scan>, totalBudget: real, weights: seq<real>) returns (m: map<string, int>)
    requires 0 < |cs| == |weights| && SumReal(weights) > 0.0
    ensures m == MapOf(cs, Amounts(totalBudget, weights))
  {
    m := map[];
    var weightSum := SumReal(weights);
    var remaining := Floor(totalBudget);
    ghost var amounts := Amounts(totalBudget, weights);
    ghost var floors := Floors(totalBudget, weights[..|cs| - 1], weightSum);
    for i := 0 to |cs|
      invariant m == MapOf(cs[..i], amounts[..i])
      invariant i < |cs| ==> remaining == Floor(totalBudget) - SumInt(floors[..i])
    {
      var amount := if i == |cs| - 1 then remaining else Floor(Share(totalBudget, weights[i], weightSum));
      if i < |cs| - 1 {
        assert floors[..i + 1][..i] == floors[..i];
        assert amount == floors[i];
      } else {
        assert floors[..i] == floors;
      }
      assert amount == amounts[i];
      MapOfNext(cs, amounts, i);
      m := m[cs[i].code := amount];
      remaining := remaining - amount;
    }
    assert cs[..|cs|] == cs && amounts[..|cs|] == amounts;
  }

  method ComputeVolatilityWeightedInvestments(cs: seq<Scan>, totalBudget: real) returns (m: map<string, int>)
    ensures |cs| == 0 || totalBudget <= 0.0 ==> m == map[]
    ensures |cs| > 0 && totalBudget > 0.0 ==> m == MapOf(cs, Split(cs, totalBudget))
  {
    if |cs| == 0 || totalBudget <= 0.0 {
      return map[];
    }
    WeightsSumPositive(Volatilities(cs));
    var weights := ComputeWeights(Volatilities(cs));
    m := SpreadByWeights(cs, totalBudget, weights);
  }

  // ----- reserving one share each -----

  /** The session budget from which the first entry buys one share; 0 when no
      price is known. */
  function MinimumInvestment(c: Scan): int {
    var ratio := TradeMeta.StrategyMeta(c.strategyId, c.variant).initialBuyRatioPct;
    if c.latestPrice.Some? && c.latestPrice.value > 0.0 && ratio > 0.0
    then Ceil(c.latestPrice.value / (ratio / 100.0))
    else 0
  }

  datatype Reserved = Reserved(selected: seq<Scan>, minimums: seq<int>, skipped: seq<Scan>, remaining: int)

  function Reserve(cs: seq<Scan>, budget: int): (r: Reserved)
    ensures |r.selected| == |r.minimums|
  {
    if |cs| == 0 then Reserved([], [], [], budget)
    else
      var r, c := Reserve(cs[..|cs| - 1], budget), cs[|cs| - 1];
      if MinimumInvestment(c) > r.remaining then r.(skipped := r.skipped + [c])
      else Reserved(r.selected + [c], r.minimums + [MinimumInvestment(c)], r.skipped,
                    r.remaining - MinimumInvestment(c))
  }

  /** Each selected candidate's reservation plus its part of the rest. */
  function Investments(r: Reserved): (xs: seq<int>)
    requires |r.selected| == |r.minimums|
    ensures |xs| == |r.selected|
  {
    var extra := Split(r.selected, r.remaining as real);
    seq(|r.selected|, i requires 0 <= i < |r.selected| => r.minimums[i] + extra[i])
  }

  /** The first pass: reserve in order, skip whoever does not fit. */
  method ReserveMinimums(cs: seq<Scan>, totalBudget: real)
    returns (selected: seq<Scan>, minimumByCode: map<string, int>, skippedCodes: seq<string>, remaining: int)
    ensures var r := Reserve(cs, Floor(totalBudget));
      && selected == r.selected && skippedCodes == Codes(r.skipped) && remaining == r.remaining
      && minimumByCode == MapOf(r.selected, r.minimums)
  {
    selected, skippedCodes, minimumByCode := [], [], map[];
    remaining := Floor(totalBudget);
    ghost var r := Reserve([], remaining);
    for n := 0 to |cs|
      invariant r == Reserve(cs[..n], Floor(totalBudget))
      invariant selected == r.selected && remaining == r.remaining
      invariant skippedCodes == Codes(r.skipped)
      invariant minimumByCode == MapOf(r.selected, r.minimums)
    {
      assert cs[..n + 1][..n] == cs[..n];
      var candidate := cs[n];
      var minimum := MinimumInvestment(candidate);
      ghost var before := r;
      r := Reserve(cs[..n + 1], Floor(totalBudget));
      if minimum > remaining {
        skippedCodes := skippedCodes + [candidate.code];
        continue;
      }
      MapOfAppend(before.selected, before.minimums, candidate, minimum);
      selected := selected + [candidate];
      minimumByCode := minimumByCode[candidate.code := minimum];
      remaining := remaining - minimum;
    }
    assert cs[..|cs|] == cs;
  }

  /** What each selected candidate sets in the last pass. */
  function Sums(selected: seq<Scan>, minimumByCode: map<string, int>, extraByCode: map<string, int>): (xs: seq<int>)
    ensures |xs| == |selected|
  {
    seq(|selected|, i requires 0 <= i < |selected| =>
      Get(minimumByCode, selected[i].code) + Get(extraByCode, selected[i].code))
  }

  /** The last pass: each code gets its reservation plus its part of the rest. */
  method AddUp(selected: seq<Scan>, minimumByCode: map<string, int>, extraByCode: map<string, int>)
    returns (investments: map<string, int>)
    ensures investments == MapOf(selected, Sums(selected, minimumByCode, extraByCode))
  {
    investments := map[];
    ghost var sums := Sums(selected, minimumByCode, extraByCode);
    for i := 0 to |selected|
      invariant investments == MapOf(selected[..i], sums[..i])
    {
      MapOfNext(selected, sums, i);
      investments := investments[selected[i].code :=
        Get(minimumByCode, selected[i].code) + Get(extraByCode, selected[i].code)];
    }
    assert selected[..|selected|] == selected && sums[..|selected|] == sums;
  }

  /** The map of investments: reservation plus part of the rest, by code. */
  function InvestmentMap(r: Reserved): map<string, int>
    requires |r.selected| == |r.minimums|
  {
    var extra := if |r.selected| == 0 || r.remaining <= 0 then map[]
                 else MapOf(r.selected, Split(r.selected, r.remaining as real));
    MapOf(r.selected, Sums(r.selected, MapOf(r.selected, r.minimums), extra))
  }

  method ComputeAffordableInvestments(cs: seq<Scan>, totalBudget: real)
    returns (selected: seq<Scan>, investments: map<string, int>, skippedCodes: seq<string>)
    ensures var r := Reserve(cs, Floor(totalBudget));
      selected == r.selected && skippedCodes == Codes(r.skipped) && investments == InvestmentMap(r)
  {
    var minimumByCode, remaining;
    selected, minimumByCode, skippedCodes, remaining := ReserveMinimums(cs, totalBudget);
    if |selected| == 0 {
      return selected, map[], skippedCodes;
    }
    var extraByCode := ComputeVolatilityWeightedInvestments(selected, remaining as real);
    investments := AddUp(selected, minimumByCode, extraByCode);
  }

  lemma {:induction false} SelectedAreCandidates(cs: seq<Scan>, budget: int, i: nat)
    requires i < |Reserve(cs, budget).selected|
    ensures Reserve(cs, budget).selected[i] in cs
  {
    var init := Reserve(cs[..|cs| - 1], budget);
    if i < |init.selected| {
      SelectedAreCandidates(cs[..|cs| - 1], budget, i);
    }
  }

  lemma {:induction false} SelectedAreDistinct(cs: seq<Scan>, budget: int)
    requires Distinct(cs)
    ensures Distinct(Reserve(cs, budget).selected)
  {
    if |cs| > 0 {
      var n := |cs| - 1;
      var init := Reserve(cs[..n], budget);
      SelectedAreDistinct(cs[..n], budget);
      forall i | 0 <= i < |init.selected| ensures init.selected[i].code != cs[n].code {
        SelectedAreCandidates(cs[..n], budget, i);
      }
    }
  }

  /** With distinct codes the map holds exactly each candidate's reservation plus
      its part of the rest. */
  lemma InvestmentsAreInTheMap(cs: seq<Scan>, budget: int, i: nat)
    requires Distinct(cs) && i < |Reserve(cs, budget).selected|
    ensures var r := Reserve(cs, budget);
      && InvestmentMap(r).Keys == (set k | 0 <= k < |r.selected| :: r.selected[k].code)
      && InvestmentMap(r)[r.selected[i].code] == Investments(r)[i]
  {
    SelectedAreDistinct(cs, budget);
    AmountsAreInTheMap(Reserve(cs, budget), i);
  }

  lemma AmountsAreInTheMap(r: Reserved, i: nat)
    requires i < |r.selected| == |r.minimums| && Distinct(r.selected)
    ensures InvestmentMap(r).Keys == (set k | 0 <= k < |r.selected| :: r.selected[k].code)
    ensures InvestmentMap(r)[r.selected[i].code] == Investments(r)[i]
  {
    var split := Split(r.selected, r.remaining as real);
    var extra := if r.remaining <= 0 then map[] else MapOf(r.selected, split);
    var sums := Sums(r.selected, MapOf(r.selected, r.minimums), extra);
    MapOfDistinct(r.selected, r.minimums, i);
    if r.remaining > 0 {
      MapOfDistinct(r.selected, split, i);
    }
    MapOfDistinct(r.selected, sums, i);
    MapOfKeys(r.selected, sums);
  }

  // ----- what the allocation promises -----

  lemma MinimumIsNonNegative(c: Scan)
    ensures MinimumInvestment(c) >= 0
  {
    TradeMeta.PolicyFitsBudget(c.strategyId, c.variant);
    var ratio := TradeMeta.StrategyMeta(c.strategyId, c.variant).initialBuyRatioPct;
    if c.latestPrice.Some? && c.latestPrice.value > 0.0 {
      assert c.latestPrice.value / (ratio / 100.0) > 0.0;
    }
  }

  lemma {:induction false} ReservedIsSpent(cs: seq<Scan>, budget: int)
    ensures Reserve(cs, budget).remaining == budget - SumInt(Reserve(cs, budget).minimums)
  {
    if |cs| > 0 {
      var r, c := Reserve(cs[..|cs| - 1], budget), cs[|cs| - 1];
      ReservedIsSpent(cs[..|cs| - 1], budget);
      assert (r.minimums + [MinimumInvestment(c)])[..|r.minimums|] == r.minimums;
    }
  }

  lemma {:induction false} ReserveFacts(cs: seq<Scan>, budget: int)
    ensures var r := Reserve(cs, budget);
      && r.remaining <= budget
      && (|r.selected| > 0 ==> r.remaining >= 0)
      && (forall i :: 0 <= i < |r.selected| ==> r.minimums[i] == MinimumInvestment(r.selected[i]) >= 0)
      && (forall c :: c in r.skipped ==> MinimumInvestment(c) > r.remaining)
      && |r.selected| + |r.skipped| == |cs|
  {
    if |cs| > 0 {
      ReserveFacts(cs[..|cs| - 1], budget);
      MinimumIsNonNegative(cs[|cs| - 1]);
    }
  }

  /** Nobody skipped could have been served from what is left. */
  lemma SkippedDoNotFit(cs: seq<Scan>, budget: int, c: Scan)
    requires c in Reserve(cs, budget).skipped
    ensures MinimumInvestment(c) > Reserve(cs, budget).remaining
  {
    ReserveFacts(cs, budget);
  }

  lemma {:induction false} SumOfZeros(xs: seq<int>)
    requires forall i :: 0 <= i < |xs| ==> xs[i] == 0
    ensures SumInt(xs) == 0
  {
    if |xs| > 0 {
      SumOfZeros(xs[..|xs| - 1]);
    }
  }

  /** A split of whole won hands out all of it and nothing negative. */
  lemma SplitIsExact(cs: seq<Scan>, budget: int)
    requires |cs| > 0 && budget >= 0
    ensures var amounts := Split(cs, budget as real);
      SumInt(amounts) == budget && forall i :: 0 <= i < |amounts| ==> amounts[i] >= 0
  {
    if budget == 0 {
      SumOfZeros(Split(cs, budget as real));
    } else {
      var ws := Weights(Volatilities(cs));
      WeightsSumPositive(Volatilities(cs));
      AmountsAreExact(budget as real, ws);
      AmountsAreNonNegative(budget as real, ws);
      assert Floor(budget as real) == budget;
    }
  }

  lemma {:induction false} SumOfPairs(xs: seq<int>, ys: seq<int>, zs: seq<int>)
    requires |xs| == |ys| == |zs| && forall i :: 0 <= i < |xs| ==> zs[i] == xs[i] + ys[i]
    ensures SumInt(zs) == SumInt(xs) + SumInt(ys)
  {
    if |xs| > 0 {
      var n := |xs| - 1;
      SumOfPairs(xs[..n], ys[..n], zs[..n]);
    }
  }

  /** Whoever is selected, the investments use up the whole budget to the won,
      and nobody gets less than the reservation. */
  lemma AllocationIsExact(cs: seq<Scan>, totalBudget: real)
    requires |Reserve(cs, Floor(totalBudget)).selected| > 0
    ensures var r := Reserve(cs, Floor(totalBudget));
      && SumInt(Investments(r)) == Floor(totalBudget)
      && forall i :: 0 <= i < |r.selected| ==> Investments(r)[i] >= MinimumInvestment(r.selected[i]) >= 0
  {
    var r := Reserve(cs, Floor(totalBudget));
    ReserveFacts(cs, Floor(totalBudget));
    ReservedIsSpent(cs, Floor(totalBudget));
    SplitIsExact(r.selected, r.remaining);
    SumOfPairs(r.minimums, Split(r.selected, r.remaining as real), Investments(r));
  }

  /** A session opened flat for a selected candidate. */
  predicate OpenedFor(s: Position.Session, c: Scan, investment: int) {
    && s.strategyId == c.strategyId && s.variant == c.variant && s.investmentAmount == investment
    && s.holdingQty == 0 && s.avgBuyPrice == 0.0
  }

  lemma AffordsOneShare(investment: int, price: real, ratio: real)
    requires price > 0.0 && 0.0 < ratio <= 100.0 && investment >= Ceil(price / (ratio / 100.0))
    ensures price <= investment as real * (ratio / 100.0) <= investment as real
  {
    var part := ratio / 100.0;
    var need := price / part;
    assert need * part == price;
    assert need > 0.0;
    assert need * part <= investment as real * part;
    assert investment as real * part <= investment as real * 1.0;
  }

  /** An investment that covers the reservation buys one share. */
  lemma CoveredBuysOneShare(c: Scan, investment: int, s: Position.Session, cfg: Trading.Config)
    requires !cfg.riskSizing && OpenedFor(s, c, investment)
    requires c.latestPrice.Some? && c.latestPrice.value > 0.0 && investment >= MinimumInvestment(c)
    ensures Trading.AutoBuyQty(cfg, s, c.latestPrice.value) >= 1
  {
    TradeMeta.PolicyFitsBudget(c.strategyId, c.variant);
    var ratio := TradeMeta.StrategyMeta(c.strategyId, c.variant).initialBuyRatioPct;
    AffordsOneShare(investment, c.latestPrice.value, ratio);
    assert Trading.BuyRatio(s) == ratio;
    Trading.FlatSessionBuys(cfg, s, c.latestPrice.value);
  }

  /** Each selected candidate with a known price gets enough that the automatic
      buy, at that price and from a flat session, asks for at least one share. */
  lemma AllocationBuysOneShare(cs: seq<Scan>, totalBudget: real, i: nat, s: Position.Session, cfg: Trading.Config)
    requires i < |Reserve(cs, Floor(totalBudget)).selected| && !cfg.riskSizing
    requires var r := Reserve(cs, Floor(totalBudget));
      r.selected[i].latestPrice.Some? && r.selected[i].latestPrice.value > 0.0
      && OpenedFor(s, r.selected[i], Investments(r)[i])
    ensures Trading.AutoBuyQty(cfg, s, Reserve(cs, Floor(totalBudget)).selected[i].latestPrice.value) >= 1
  {
    var r := Reserve(cs, Floor(totalBudget));
    AllocationIsExact(cs, totalBudget);
    CoveredBuysOneShare(r.selected[i], Investments(r)[i], s, cfg);
  }

  lemma QuotientReaches(price: real, part: real, investment: real)
    requires part > 0.0
    ensures investment >= price / part <==> investment * part >= price
  {
    var need := price / part;
    assert need * part == price;
    if investment >= need {
      assert investment * part >= need * part;
    } else {
      assert investment * part < need * part;
    }
  }

  lemma PartOf(x: real, ratio: real, part: real)
    requires ratio == 100.0 * part
    ensures x * part == x * ratio / 100.0
  {
    assert x * ratio == 100.0 * (x * part);
  }

  lemma PositiveFactor(x: real, part: real)
    requires part > 0.0 && x * part > 0.0
    ensures x > 0.0
  {
  }

  lemma PartShrinks(x: real, part: real, rest: real)
    requires x > 0.0 && 0.0 <= rest && part + rest == 1.0
    ensures x * part <= x
  {
    assert x * rest >= 0.0;
    assert x * part + x * rest == x * (part + rest);
  }

  lemma PartIsLess(x: real, part: real, price: real)
    requires 0.0 < part <= 1.0 && x * part >= price > 0.0
    ensures x >= price
  {
    PositiveFactor(x, part);
    PartShrinks(x, part, 1.0 - part);
  }

  /** An invested amount whose first part reaches the price is itself large enough. */
  lemma PartReachesIff(investment: int, price: real, ratio: real)
    requires price > 0.0 && 0.0 < ratio <= 100.0
    ensures investment >= Ceil(price / (ratio / 100.0)) <==> investment as real * ratio / 100.0 >= price
    ensures investment as real * ratio / 100.0 >= price ==> investment as real >= price
  {
    var part := ratio / 100.0;
    QuotientReaches(price, part, investment as real);
    PartOf(investment as real, ratio, part);
    if investment as real * part >= price {
      PartIsLess(investment as real, part, price);
    }
  }

  lemma AsksForOneIff(qty: int, price: real, amount: real)
    requires price > 0.0 && Trading.MostOf(qty, price, amount)
    ensures qty >= 1 <==> amount >= price
  {
    if qty >= 1 {
      assert qty as real * price >= 1.0 * price;
    } else {
      assert (qty + 1) as real * price <= 1.0 * price;
    }
  }

  /** The minimum is the least there is: the automatic buy of a session opened with an
      amount asks for a share, at the known price, exactly from the minimum on. */
  lemma MinimumIsLeast(c: Scan, investment: int, s: Position.Session, cfg: Trading.Config)
    requires !cfg.riskSizing && OpenedFor(s, c, investment) && c.latestPrice.Some? && c.latestPrice.value > 0.0
    ensures Trading.AutoBuyQty(cfg, s, c.latestPrice.value) >= 1 <==> investment >= MinimumInvestment(c)
  {
    TradeMeta.PolicyFitsBudget(c.strategyId, c.variant);
    var price, ratio := c.latestPrice.value, TradeMeta.StrategyMeta(c.strategyId, c.variant).initialBuyRatioPct;
    PartReachesIff(investment, price, ratio);
    if investment <= 0 {
      Trading.BlockedBuysNothing(cfg, s, price);
    } else {
      Trading.AutoBuyIsMost(cfg, s, price);
      AsksForOneIff(Trading.AutoBuyQty(cfg, s, price), price, MinReal(Trading.PlannedAmount(s), investment as real));
    }
  }

  /** Without a price nothing is reserved. */
  lemma NoPriceNoMinimum(c: Scan)
    requires c.latestPrice.None? || c.latestPrice.value <= 0.0
    ensures MinimumInvestment(c) == 0
  {
  }

  /** What is left of the budget after the first `n` candidates had their turn. */
  function LeftAfter(cs: seq<Scan>, budget: int, n: nat): int
    requires n <= |cs|
  {
    if n == 0 then budget
    else
      var left := LeftAfter(cs, budget, n - 1);
      if MinimumInvestment(cs[n - 1]) <= left then left - MinimumInvestment(cs[n - 1]) else left
  }

  /** Those of the first `n` whose turn came while enough was left, or was not. */
  function Served(cs: seq<Scan>, budget: int, n: nat, enough: bool): seq<Scan>
    requires n <= |cs|
  {
    if n == 0 then []
    else
      Served(cs, budget, n - 1, enough)
      + (if (MinimumInvestment(cs[n - 1]) <= LeftAfter(cs, budget, n - 1)) == enough then [cs[n - 1]] else [])
  }

  lemma {:induction false} ServedOfPrefix(cs: seq<Scan>, budget: int, m: nat, n: nat, enough: bool)
    requires n <= m <= |cs|
    ensures LeftAfter(cs[..m], budget, n) == LeftAfter(cs, budget, n)
    ensures Served(cs[..m], budget, n, enough) == Served(cs, budget, n, enough)
  {
    if n > 0 {
      ServedOfPrefix(cs, budget, m, n - 1, enough);
    }
  }

  /** Candidates are served in order while their minimum fits into what the ones before
      them left; the others are skipped, in order, and take nothing. */
  lemma {:induction false} ReserveServesInOrder(cs: seq<Scan>, budget: int)
    ensures var r := Reserve(cs, budget);
      && r.selected == Served(cs, budget, |cs|, true) && r.skipped == Served(cs, budget, |cs|, false)
      && r.remaining == LeftAfter(cs, budget, |cs|)
  {
    if |cs| > 0 {
      var n := |cs| - 1;
      ReserveServesInOrder(cs[..n], budget);
      ServedOfPrefix(cs, budget, n, n, true);
      ServedOfPrefix(cs, budget, n, n, false);
    }
  }

  /** Beside its reservation each gets its amount of what is left, split by weight. */
  lemma ExtraIsAmount(cs: seq<Scan>, budget: int, i: nat)
    requires i < |Reserve(cs, budget).selected| && Reserve(cs, budget).remaining > 0
    ensures var r := Reserve(cs, budget);
      && SumReal(Weights(Volatilities(r.selected))) > 0.0
      && Investments(r)[i] == MinimumInvestment(r.selected[i])
                              + Amounts(r.remaining as real, Weights(Volatilities(r.selected)))[i]
  {
    ReserveFacts(cs, budget);
    WeightsSumPositive(Volatilities(Reserve(cs, budget).selected));
  }
}
