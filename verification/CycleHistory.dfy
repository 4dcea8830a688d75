/** What a session knows of its current cycle, read off the moves of a run alone:
    when it was entered, how often it was added to, how far it was scaled out, and
    what it is worth. */
module CycleHistory {
  import opened Numbers
  import opened OrderLedger
  import opened Position

  /** The entry of a cycle: shares are held after the move and were not before. */
  predicate Enters(before: Session, after: Session) { before.holdingQty == 0 < after.holdingQty }

  /** How many buys met shares already held, each counted with its first fill, since
      the session was last flat. */
  function AddOns(s: Session, ms: seq<Move>): nat {
    if |ms| == 0 then 0
    else
      var init, m := ms[..|ms| - 1], ms[|ms| - 1];
      var t := Run(s, init);
      if Run(s, ms).holdingQty == 0 then 0
      else AddOns(s, init) + (if IsFill(t, m, Buy) && m.fill.first && t.holdingQty > 0 then 1 else 0)
  }

  /** The time of the fill that entered the cycle. */
  function EntryTime(s: Session, ms: seq<Move>): Option<int> {
    if |ms| == 0 || Run(s, ms).holdingQty == 0 then None
    else
      var init, m := ms[..|ms| - 1], ms[|ms| - 1];
      if IsFill(Run(s, init), m, Buy) && Enters(Run(s, init), Run(s, ms)) then Some(m.fill.now) else EntryTime(s, init)
  }

  /** The shares held after the last buy fill of the cycle. */
  function QtyAtLastBuy(s: Session, ms: seq<Move>): int {
    if |ms| == 0 || Run(s, ms).holdingQty == 0 then 0
    else if IsFill(Run(s, ms[..|ms| - 1]), ms[|ms| - 1], Buy) then Run(s, ms).holdingQty
    else QtyAtLastBuy(s, ms[..|ms| - 1])
  }

  /** The stage of the last sell since then that has one. */
  function StageReached(s: Session, ms: seq<Move>): int {
    if |ms| == 0 || Run(s, ms).holdingQty == 0 then 0
    else
      var t, m := Run(s, ms[..|ms| - 1]), ms[|ms| - 1];
      if IsFill(t, m, Buy) then 0
      else if IsFill(t, m, Sell) && m.fill.first && m.fill.stage.Some? then m.fill.stage.value
      else StageReached(s, ms[..|ms| - 1])
  }

  /** How many orders of a side have filled, each counted with its first fill. */
  function Orders(s: Session, ms: seq<Move>, side: Side): nat {
    if |ms| == 0 then 0
    else
      var init, m := ms[..|ms| - 1], ms[|ms| - 1];
      Orders(s, init, side) + (if IsFill(Run(s, init), m, side) && m.fill.first then 1 else 0)
  }

  /** The move is a fill of either side that counts. */
  predicate IsAnyFill(s: Session, m: Move) { IsFill(s, m, Buy) || IsFill(s, m, Sell) }

  /** What shares are worth above what they cost, in whole won. */
  function Above(price: real, avg: real, holding: int): int {
    Round(price * holding as real - avg * holding as real)
  }

  /** That, at the price known when the last fill with one came in. */
  function LastMark(s: Session, ms: seq<Move>): int {
    if |ms| == 0 || Run(s, ms).holdingQty == 0 then 0
    else
      var t, t', m := Run(s, ms[..|ms| - 1]), Run(s, ms), ms[|ms| - 1];
      if IsAnyFill(t, m) && m.fill.latestPrice != 0.0
      then Above(m.fill.latestPrice, t'.avgBuyPrice, t'.holdingQty)
      else LastMark(s, ms[..|ms| - 1])
  }

  /** The pending flag as it was last set, or as it was. */
  function LastFlag(was: bool, ms: seq<Move>): bool {
    if |ms| == 0 then was
    else if ms[|ms| - 1].PauseFlag? then ms[|ms| - 1].pending
    else LastFlag(was, ms[..|ms| - 1])
  }

  /** Shares bought less shares sold, of which at most those held are sold. */
  function Held(s: Session, ms: seq<Move>): int {
    if |ms| == 0 then 0
    else
      var t, m := Run(s, ms[..|ms| - 1]), ms[|ms| - 1];
      var held := Held(s, ms[..|ms| - 1]);
      if IsFill(t, m, Buy) then held + m.fill.qty
      else if IsFill(t, m, Sell) then MaxInt(0, held - m.fill.qty)
      else held
  }

  /** A session that holds nothing, as it is opened. */
  predicate Opened(s: Session) {
    && Sound(s) && s.holdingQty == 0 && s.addOnBuyCount == 0 && s.enteredAt == None
    && s.scaleOutStage == 0 && s.initialQty == 0 && s.unrealizedPnl == 0
  }

  /** The fields say what the moves were. */
  ghost predicate Recalls(s: Session, ms: seq<Move>) {
    var t := Run(s, ms);
    && t.holdingQty == Held(s, ms)
    && t.addOnBuyCount == AddOns(s, ms)
    && t.enteredAt == EntryTime(s, ms)
    && t.initialQty == QtyAtLastBuy(s, ms)
    && t.scaleOutStage == StageReached(s, ms)
    && t.totalBuys == s.totalBuys + Orders(s, ms, Buy)
    && t.totalSells == s.totalSells + Orders(s, ms, Sell)
    && t.autoPausePending == LastFlag(s.autoPausePending, ms)
  }

  lemma {:induction false} EntryIsRecalled(s: Session, ms: seq<Move>)
    requires Opened(s)
    ensures var t := Run(s, ms);
      && Sound(t) && t.addOnBuyCount == AddOns(s, ms) && t.enteredAt == EntryTime(s, ms)
      && (t.holdingQty == 0 ==> t.addOnBuyCount == 0)
  {
    if |ms| > 0 {
      EntryIsRecalled(s, ms[..|ms| - 1]);
      StepKeepsSound(Run(s, ms[..|ms| - 1]), ms[|ms| - 1]);
    }
  }

  lemma {:induction false} ScaleOutIsRecalled(s: Session, ms: seq<Move>)
    requires Opened(s)
    ensures var t := Run(s, ms);
      Sound(t) && t.initialQty == QtyAtLastBuy(s, ms) && t.scaleOutStage == StageReached(s, ms)
  {
    if |ms| > 0 {
      ScaleOutIsRecalled(s, ms[..|ms| - 1]);
      StepKeepsSound(Run(s, ms[..|ms| - 1]), ms[|ms| - 1]);
    }
  }

  lemma {:induction false} OrdersAreRecalled(s: Session, ms: seq<Move>)
    requires Sound(s)
    ensures var t := Run(s, ms);
      t.totalBuys == s.totalBuys + Orders(s, ms, Buy) && t.totalSells == s.totalSells + Orders(s, ms, Sell)
  {
    if |ms| > 0 {
      OrdersAreRecalled(s, ms[..|ms| - 1]);
    }
  }

  lemma {:induction false} FlagIsRecalled(s: Session, ms: seq<Move>)
    ensures Run(s, ms).autoPausePending == LastFlag(s.autoPausePending, ms)
  {
    if |ms| > 0 {
      FlagIsRecalled(s, ms[..|ms| - 1]);
    }
  }

  lemma {:induction false} HoldingIsRecalled(s: Session, ms: seq<Move>)
    requires Opened(s)
    ensures Sound(Run(s, ms)) && Run(s, ms).holdingQty == Held(s, ms)
  {
    if |ms| > 0 {
      HoldingIsRecalled(s, ms[..|ms| - 1]);
      StepKeepsSound(Run(s, ms[..|ms| - 1]), ms[|ms| - 1]);
    }
  }

  /** Over every run from an opened session: the holding is what was bought less what
      was sold, the add-ons are the buys that met shares already held, the entry time
      is that of the fill that began the cycle, and quantity and stage of scaling out
      follow the last buy and the sells since. */
  lemma CycleIsRecalled(s: Session, ms: seq<Move>)
    requires Opened(s)
    ensures Recalls(s, ms)
  {
    EntryIsRecalled(s, ms);
    ScaleOutIsRecalled(s, ms);
    OrdersAreRecalled(s, ms);
    HoldingIsRecalled(s, ms);
    FlagIsRecalled(s, ms);
  }

  lemma AboveForms(price: real, avg: real, holding: int)
    ensures Round((price - avg) * holding as real) == Above(price, avg, holding)
  {
    assert (price - avg) * holding as real == price * holding as real - avg * holding as real;
  }

  lemma MarkOfBuy(t: Session, f: Fill)
    requires Sound(t) && IsFill(t, Filled(f), Buy) && f.latestPrice != 0.0
    ensures var t' := ApplyFill(t, f); t'.unrealizedPnl == Above(f.latestPrice, t'.avgBuyPrice, t'.holdingQty)
  {
    var avg := NewAverage(t.avgBuyPrice, t.holdingQty, ResolvedPrice(t, f), f.qty);
    AboveForms(f.latestPrice, avg, t.holdingQty + f.qty);
  }

  lemma MarkOfSell(t: Session, f: Fill)
    requires Sound(t) && IsFill(t, Filled(f), Sell) && f.latestPrice != 0.0 && ApplyFill(t, f).holdingQty > 0
    ensures var t' := ApplyFill(t, f); t'.unrealizedPnl == Above(f.latestPrice, t'.avgBuyPrice, t'.holdingQty)
  {
    AboveForms(f.latestPrice, t.avgBuyPrice, ApplyFill(t, f).holdingQty);
  }

  lemma MarkStays(t: Session, m: Move)
    requires Sound(t) && Step(t, m).holdingQty > 0 && !(IsAnyFill(t, m) && m.fill.latestPrice != 0.0)
    ensures Step(t, m).unrealizedPnl == t.unrealizedPnl
  {
  }

  lemma MarkEnds(t: Session, m: Move)
    requires Sound(t) && Step(t, m).holdingQty == 0 && (t.holdingQty == 0 ==> t.unrealizedPnl == 0)
    ensures Step(t, m).unrealizedPnl == 0
  {
  }

  /** What a move makes of the mark, given as the one before it. */
  lemma MarkStep(t: Session, m: Move, t': Session, mark: int)
    requires Sound(t) && t' == Step(t, m) && t.unrealizedPnl == mark && (t.holdingQty == 0 ==> mark == 0)
    ensures t'.unrealizedPnl ==
      if t'.holdingQty == 0 then 0
      else if IsAnyFill(t, m) && m.fill.latestPrice != 0.0 then Above(m.fill.latestPrice, t'.avgBuyPrice, t'.holdingQty)
      else mark
  {
    if t'.holdingQty == 0 {
      MarkEnds(t, m);
    } else if IsAnyFill(t, m) && m.fill.latestPrice != 0.0 {
      match m.fill.side
      case Buy => MarkOfBuy(t, m.fill);
      case Sell => MarkOfSell(t, m.fill);
    } else {
      MarkStays(t, m);
    }
  }

  lemma {:induction false} MarkIsRecalled(s: Session, ms: seq<Move>)
    requires Opened(s)
    ensures Run(s, ms).unrealizedPnl == LastMark(s, ms)
    ensures Run(s, ms).holdingQty == 0 ==> LastMark(s, ms) == 0
  {
    if |ms| > 0 {
      var init := ms[..|ms| - 1];
      MarkIsRecalled(s, init);
      RunKeepsSound(s, init);
      MarkStep(Run(s, init), ms[|ms| - 1], Run(s, ms), LastMark(s, init));
    }
  }

  lemma LastMarkIs(s: Session, ms: seq<Move>, t: Session, latest: real)
    requires Opened(s) && |ms| > 0 && t == Run(s, ms) && t.holdingQty > 0
    requires IsAnyFill(Run(s, ms[..|ms| - 1]), ms[|ms| - 1]) && latest == ms[|ms| - 1].fill.latestPrice != 0.0
    ensures t.unrealizedPnl == Above(latest, t.avgBuyPrice, t.holdingQty)
  {
    MarkIsRecalled(s, ms);
  }

  /** By how much the profit of a session is away from cash plus market value. */
  function ProfitGap(s: Session, t: Session, cash: real, latest: real): real {
    (t.realizedPnl - s.realizedPnl + t.unrealizedPnl) as real - (cash + latest * t.holdingQty as real)
  }

  lemma MarkedProfit(s: Session, t: Session, cash: real, latest: real, sells: nat)
    requires t.unrealizedPnl == Above(latest, t.avgBuyPrice, t.holdingQty)
    requires AbsReal((t.realizedPnl - s.realizedPnl) as real - (cash + BookValue(t))) <= 0.5 * sells as real
    ensures AbsReal(ProfitGap(s, t, cash, latest)) <= 0.5 * (sells + 1) as real
  {
    var market, value := latest * t.holdingQty as real, BookValue(t);
    var mark := Round(market - value);
    assert t.unrealizedPnl == mark;
    assert -0.5 <= mark as real - (market - value) <= 0.5;
    assert ProfitGap(s, t, cash, latest)
        == ((t.realizedPnl - s.realizedPnl) as real - (cash + value)) + (mark as real - (market - value));
  }

  /** Profit is cash plus market value: after a fill that comes with the latest price,
      realized and unrealized profit together are what the sells of the whole run
      took in, less what its buys cost, plus the shares at that price, within half a
      won for each sell fill and one more. */
  lemma ProfitIsCashPlusMarketValue(s: Session, ms: seq<Move>, latest: real)
    requires Opened(s) && |ms| > 0 && Run(s, ms).holdingQty > 0
    requires IsAnyFill(Run(s, ms[..|ms| - 1]), ms[|ms| - 1]) && latest == ms[|ms| - 1].fill.latestPrice != 0.0
    ensures AbsReal(ProfitGap(s, Run(s, ms), NetCash(s, ms), latest)) <= 0.5 * (SellCount(s, ms) + 1) as real
  {
    CashIdentity(s, ms);
    LastMarkIs(s, ms, Run(s, ms), latest);
    assert BookValue(s) == 0.0;
    MarkedProfit(s, Run(s, ms), NetCash(s, ms), latest, SellCount(s, ms));
  }
}
