/** One order row fed by both channels at once, against what the broker really
    filled: when the quantity is right, and when the amount is. */
module TwoChannels {
  import opened Numbers
  import opened OrderLedger

  // ----- what the broker did and what the service hears -----

  /** The quantity of the broker's first `n` fills. */
  function Cumulative(fills: seq<nat>, n: nat): nat
    requires n <= |fills|
  {
    if n == 0 then 0 else Cumulative(fills, n - 1) + fills[n - 1]
  }

  /** A message about the order: the notification of one fill, or a report that
      includes the first `fills` of them. They come in any order, late or twice. */
  datatype Message = OfFill(fill: nat, price: real, orderPrice: real) | OfReport(fills: nat, report: Report)

  /** A message says what the broker did. A report that nothing is left, or that
      the order is cancelled or rejected, includes every fill there will be. */
  predicate Truthful(fills: seq<nat>, m: Message) {
    match m
    case OfFill(j, _, _) => j < |fills|
    case OfReport(n, r) =>
      && n <= |fills| && r.cumulativeQty == Cumulative(fills, n)
      && (NothingLeft(r) || r.canceled || r.rejectedQty > 0 ==> n == |fills|)
  }

  /** The broker's fills of an order: none is empty, and together they do not
      exceed it. */
  ghost predicate FillsOf(o: Order, fills: seq<nat>) {
    (forall j :: 0 <= j < |fills| ==> fills[j] > 0) && Cumulative(fills, |fills|) <= o.quantity
  }

  ghost predicate AllTruthful(fills: seq<nat>, ms: seq<Message>) {
    forall i :: 0 <= i < |ms| ==> Truthful(fills, ms[i])
  }

  function EventOf(fills: seq<nat>, m: Message): Event
    requires Truthful(fills, m)
  {
    match m
    case OfFill(j, price, orderPrice) => Notified(fills[j], price, orderPrice)
    case OfReport(_, r) => Polled(r)
  }

  function EventsOf(fills: seq<nat>, ms: seq<Message>): (es: seq<Event>)
    requires AllTruthful(fills, ms)
    ensures |es| == |ms|
  {
    seq(|ms|, i requires 0 <= i < |ms| => EventOf(fills, ms[i]))
  }

  /** How many fills the messages so far have told of: the last one notified, or
      all that a report includes, whichever is more. */
  function Heard(ms: seq<Message>): nat {
    if |ms| == 0 then 0
    else
      var m := ms[|ms| - 1];
      MaxInt(Heard(ms[..|ms| - 1]), if m.OfFill? then m.fill + 1 else m.fills)
  }

  /** The row after the messages. */
  function RowAfter(o: Order, fills: seq<nat>, ms: seq<Message>): Order
    requires AllTruthful(fills, ms)
  {
    RunOrder(o, EventsOf(fills, ms))
  }

  lemma RowAfterNext(o: Order, fills: seq<nat>, ms: seq<Message>)
    requires AllTruthful(fills, ms) && |ms| > 0
    ensures RowAfter(o, fills, ms) ==
            StepOrder(RowAfter(o, fills, ms[..|ms| - 1]), EventOf(fills, ms[|ms| - 1])).0
  {
    assert EventsOf(fills, ms)[..|ms| - 1] == EventsOf(fills, ms[..|ms| - 1]);
  }

  lemma {:induction false} HeardInRange(fills: seq<nat>, ms: seq<Message>)
    requires AllTruthful(fills, ms)
    ensures Heard(ms) <= |fills|
  {
    if |ms| > 0 {
      HeardInRange(fills, ms[..|ms| - 1]);
    }
  }

  lemma {:induction false} CumulativeRises(fills: seq<nat>, m: nat, n: nat)
    requires m <= n <= |fills| && forall j :: 0 <= j < |fills| ==> fills[j] > 0
    ensures Cumulative(fills, m) <= Cumulative(fills, n)
    ensures m < n ==> Cumulative(fills, m) < Cumulative(fills, n)
  {
    if m < n {
      CumulativeRises(fills, m, n - 1);
    }
  }

  // ----- when the row is right -----

  /** The row holds exactly the fills it has been told of. */
  ghost predicate Right(o: Order, fills: seq<nat>, ms: seq<Message>)
    requires AllTruthful(fills, ms)
  {
    HeardInRange(fills, ms);
    RowAfter(o, fills, ms).executedQuantity == Cumulative(fills, Heard(ms))
  }

  ghost predicate AlwaysRight(o: Order, fills: seq<nat>, ms: seq<Message>)
    requires AllTruthful(fills, ms)
  {
    forall i :: 0 <= i <= |ms| ==> Right(o, fills, ms[..i])
  }

  /** Message `i` is a notification that reaches the open row out of turn: its fill
      is not the next one after those told of before, because a report already
      included it, or it was notified before, or an earlier one is still missing. */
  ghost predicate OutOfTurn(o: Order, fills: seq<nat>, ms: seq<Message>, i: nat)
    requires AllTruthful(fills, ms) && i < |ms|
  {
    ms[i].OfFill? && IsOpen(RowAfter(o, fills, ms[..i])) && ms[i].fill != Heard(ms[..i])
  }

  /** Right, and if closed, then because there is nothing more to hear. */
  ghost predicate Good(row: Order, fills: seq<nat>, heard: nat)
    requires heard <= |fills|
  {
    && WellFormed(row) && row.executedQuantity == Cumulative(fills, heard)
    && (!IsOpen(row) ==> heard == |fills|)
  }

  /** A notification in turn keeps the row right, and one out of turn does not. */
  lemma NotificationStep(row: Order, fills: seq<nat>, heard: nat, j: nat, price: real, orderPrice: real)
    requires FillsOf(row, fills) && heard <= |fills| && j < |fills| && Good(row, fills, heard) && IsOpen(row)
    ensures var row', heard' := StepOrder(row, Notified(fills[j], price, orderPrice)).0, MaxInt(heard, j + 1);
      && (row'.executedQuantity == Cumulative(fills, heard') <==> j == heard)
      && (j == heard ==> Good(row', fills, heard'))
  {
    StepKeepsOrder(row, Notified(fills[j], price, orderPrice));
    var row' := StepOrder(row, Notified(fills[j], price, orderPrice)).0;
    CumulativeRises(fills, MaxInt(heard, j + 1), |fills|);
    assert row'.executedQuantity == MinInt(row.quantity, Cumulative(fills, heard) + fills[j]);
    if j == heard {
      assert Cumulative(fills, heard + 1) == Cumulative(fills, heard) + fills[j];
    } else if j > heard {
      CumulativeRises(fills, heard, j);
      assert Cumulative(fills, j + 1) == Cumulative(fills, j) + fills[j];
    } else {
      assert row.executedQuantity < row.quantity;
    }
  }

  /** A report always leaves a right row right. */
  lemma ReportStep(row: Order, fills: seq<nat>, heard: nat, n: nat, r: Report)
    requires FillsOf(row, fills) && heard <= |fills| && Truthful(fills, OfReport(n, r))
    requires Good(row, fills, heard) && IsOpen(row)
    ensures Good(StepOrder(row, Polled(r)).0, fills, MaxInt(heard, n))
  {
    StepKeepsOrder(row, Polled(r));
    ReportClosesIff(row, r);
    CumulativeRises(fills, MinInt(heard, n), MaxInt(heard, n));
    CumulativeRises(fills, MaxInt(heard, n), |fills|);
  }

  lemma FreshIsGood(o: Order, fills: seq<nat>)
    requires WellFormed(o) && o.status == Accepted && FillsOf(o, fills)
    ensures Good(RowAfter(o, fills, []), fills, Heard([]))
  {
    assert EventsOf(fills, []) == [];
  }

  /** While the row is good: the next message keeps it so, or is out of turn and
      makes it wrong. */
  lemma GoodNext(o: Order, fills: seq<nat>, ms: seq<Message>)
    requires WellFormed(o) && FillsOf(o, fills) && AllTruthful(fills, ms) && |ms| > 0
    requires var init := ms[..|ms| - 1]; Heard(init) <= |fills| && Good(RowAfter(o, fills, init), fills, Heard(init))
    ensures Right(o, fills, ms) <==> !OutOfTurn(o, fills, ms, |ms| - 1)
    ensures Right(o, fills, ms) ==> Heard(ms) <= |fills| && Good(RowAfter(o, fills, ms), fills, Heard(ms))
  {
    var init, m := ms[..|ms| - 1], ms[|ms| - 1];
    var row := RowAfter(o, fills, init);
    HeardInRange(fills, ms);
    RowAfterNext(o, fills, ms);
    RunKeepsOrder(o, EventsOf(fills, init));
    if IsOpen(row) {
      match m
      case OfFill(j, price, orderPrice) => NotificationStep(row, fills, Heard(init), j, price, orderPrice);
      case OfReport(n, r) => ReportStep(row, fills, Heard(init), n, r);
    }
  }

  lemma {:induction false} GoodWhileInTurn(o: Order, fills: seq<nat>, ms: seq<Message>, n: nat)
    requires WellFormed(o) && o.status == Accepted && FillsOf(o, fills) && AllTruthful(fills, ms) && n <= |ms|
    requires (forall i :: 0 <= i < n ==> !OutOfTurn(o, fills, ms, i)) || AlwaysRight(o, fills, ms)
    ensures Heard(ms[..n]) <= |fills| && Good(RowAfter(o, fills, ms[..n]), fills, Heard(ms[..n]))
    ensures forall i :: 0 <= i < n ==> !OutOfTurn(o, fills, ms, i)
  {
    if n == 0 {
      FreshIsGood(o, fills);
    } else {
      var ns := ms[..n];
      GoodWhileInTurn(o, fills, ms, n - 1);
      assert ns[..n - 1] == ms[..n - 1];
      GoodNext(o, fills, ns);
      assert OutOfTurn(o, fills, ns, n - 1) <==> OutOfTurn(o, fills, ms, n - 1);
      assert AlwaysRight(o, fills, ms) ==> Right(o, fills, ns);
    }
  }

  /** Once the row is there it is right all along exactly when no notification
      reaches it out of turn while it is open. */
  lemma WrittenRowIsRightIff(o: Order, fills: seq<nat>, ms: seq<Message>)
    requires WellFormed(o) && o.status == Accepted && FillsOf(o, fills) && AllTruthful(fills, ms)
    ensures AlwaysRight(o, fills, ms) <==> forall i :: 0 <= i < |ms| ==> !OutOfTurn(o, fills, ms, i)
  {
    if AlwaysRight(o, fills, ms) {
      GoodWhileInTurn(o, fills, ms, |ms|);
    }
    if forall i :: 0 <= i < |ms| ==> !OutOfTurn(o, fills, ms, i) {
      forall n | 0 <= n <= |ms| ensures Right(o, fills, ms[..n]) {
        GoodWhileInTurn(o, fills, ms, n);
      }
    }
  }

  // ----- messages that come before the row -----

  /** The row, written after the `early` messages, which found none and left no
      trace, holds exactly the fills that all messages together told of. */
  ghost predicate HoldsAllHeard(o: Order, fills: seq<nat>, early: seq<Message>, ms: seq<Message>)
    requires AllTruthful(fills, early) && AllTruthful(fills, ms)
  {
    HeardInRange(fills, early + ms);
    RowAfter(o, fills, ms).executedQuantity == Cumulative(fills, Heard(early + ms))
  }

  ghost predicate AlwaysHoldsAllHeard(o: Order, fills: seq<nat>, early: seq<Message>, ms: seq<Message>)
    requires AllTruthful(fills, early) && AllTruthful(fills, ms)
  {
    forall n :: 0 <= n <= |ms| ==> HoldsAllHeard(o, fills, early, ms[..n])
  }

  predicate TellsOfNothing(m: Message) { m.OfReport? && m.fills == 0 }

  /** None of the messages told of a fill. */
  predicate NothingTold(ms: seq<Message>) { forall i :: 0 <= i < |ms| ==> TellsOfNothing(ms[i]) }

  lemma {:induction false} NothingHeardIff(ms: seq<Message>)
    ensures Heard(ms) == 0 <==> NothingTold(ms)
  {
    if |ms| > 0 {
      var n := |ms| - 1;
      NothingHeardIff(ms[..n]);
      assert NothingTold(ms) <==> NothingTold(ms[..n]) && TellsOfNothing(ms[n]);
    }
  }

  lemma {:induction false} HeardSince(early: seq<Message>, ms: seq<Message>)
    ensures Heard(early + ms) == MaxInt(Heard(early), Heard(ms))
  {
    if |ms| == 0 {
      assert early + ms == early;
    } else {
      HeardSince(early, ms[..|ms| - 1]);
      assert (early + ms)[..|early + ms| - 1] == early + ms[..|ms| - 1];
    }
  }

  lemma HoldsAllHeardIff(o: Order, fills: seq<nat>, early: seq<Message>, ms: seq<Message>)
    requires AllTruthful(fills, early) && AllTruthful(fills, ms) && Heard(early) == 0
    ensures HoldsAllHeard(o, fills, early, ms) <==> Right(o, fills, ms)
  {
    HeardSince(early, ms);
  }

  lemma FreshHoldsAllHeardIff(o: Order, fills: seq<nat>, early: seq<Message>)
    requires WellFormed(o) && o.status == Accepted && FillsOf(o, fills) && AllTruthful(fills, early)
    ensures HoldsAllHeard(o, fills, early, []) <==> NothingTold(early)
  {
    assert EventsOf(fills, []) == [] && early + [] == early;
    NothingHeardIff(early);
    HeardInRange(fills, early);
    CumulativeRises(fills, 0, Heard(early));
  }

  /** Through every run of truthful messages of both channels, in any order and
      however often, before the row is written and after: from then on the row
      holds what the broker had filled when last heard of, all along, exactly when
      no message told of a fill before it was there, and no notification reaches it
      out of turn while it is open. */
  lemma RowIsRightIff(o: Order, fills: seq<nat>, early: seq<Message>, ms: seq<Message>)
    requires WellFormed(o) && o.status == Accepted && FillsOf(o, fills)
    requires AllTruthful(fills, early) && AllTruthful(fills, ms)
    ensures AlwaysHoldsAllHeard(o, fills, early, ms) <==>
      NothingTold(early) && forall i :: 0 <= i < |ms| ==> !OutOfTurn(o, fills, ms, i)
  {
    FreshHoldsAllHeardIff(o, fills, early);
    NothingHeardIff(early);
    if NothingTold(early) {
      WrittenRowIsRightIff(o, fills, ms);
      forall n | 0 <= n <= |ms| ensures HoldsAllHeard(o, fills, early, ms[..n]) <==> Right(o, fills, ms[..n]) {
        HoldsAllHeardIff(o, fills, early, ms[..n]);
      }
    } else {
      assert ms[..0] == [];
    }
  }

  /** Of an order of 10, the fill of 3 is notified before the row is written and the
      fill of 7 after it: the row holds 7 and stays open, though nothing is left. */
  lemma EarlyNotificationIsLost(o: Order)
    requires WellFormed(o) && o.status == Accepted && o.quantity == 10
    ensures var fills, early, ms := [3, 7], [OfFill(0, 100.0, 100.0)], [OfFill(1, 100.0, 100.0)];
      && AllTruthful(fills, early) && AllTruthful(fills, ms)
      && RowAfter(o, fills, ms).executedQuantity == 7 && RowAfter(o, fills, ms).status == Partial
      && !HoldsAllHeard(o, fills, early, ms)
  {
    var fills, early, ms := [3, 7], [OfFill(0, 100.0, 100.0)], [OfFill(1, 100.0, 100.0)];
    RowAfterNext(o, fills, ms);
    assert ms[..0] == [] && EventsOf(fills, []) == [];
    HeardSince(early, ms);
    assert Heard(ms) == 2 && Heard(early) == 1 && Cumulative(fills, 2) == 10;
  }

  // ----- notifications that come in order -----

  /** Each fill is notified at most once, after all earlier ones were told of. */
  ghost predicate InOrder(ms: seq<Message>) {
    && (forall i :: 0 <= i < |ms| && ms[i].OfFill? ==> ms[i].fill <= Heard(ms[..i]))
    && (forall k, i :: 0 <= k < i < |ms| && ms[k].OfFill? && ms[i].OfFill? ==> ms[k].fill < ms[i].fill)
  }

  /** An earlier report already included the fill. */
  ghost predicate ReportedBefore(ms: seq<Message>, i: nat)
    requires i < |ms| && ms[i].OfFill?
  {
    exists k :: 0 <= k < i && ms[k].OfReport? && ms[k].fills > ms[i].fill
  }

  lemma {:induction false} HeardFrom(ms: seq<Message>, j: nat)
    ensures Heard(ms) > j <==>
      exists k :: 0 <= k < |ms| && (if ms[k].OfFill? then ms[k].fill >= j else ms[k].fills > j)
  {
    if |ms| > 0 {
      var n := |ms| - 1;
      HeardFrom(ms[..n], j);
      if Heard(ms[..n]) > j {
        var k :| 0 <= k < n && (if ms[..n][k].OfFill? then ms[..n][k].fill >= j else ms[..n][k].fills > j);
        assert ms[k] == ms[..n][k];
      }
      if k :| 0 <= k < |ms| && (if ms[k].OfFill? then ms[k].fill >= j else ms[k].fills > j) {
        assert k < n ==> ms[..n][k] == ms[k];
      }
    }
  }

  lemma OutOfTurnIff(o: Order, fills: seq<nat>, ms: seq<Message>, i: nat)
    requires AllTruthful(fills, ms) && InOrder(ms) && i < |ms| && ms[i].OfFill?
    ensures OutOfTurn(o, fills, ms, i) <==> IsOpen(RowAfter(o, fills, ms[..i])) && ReportedBefore(ms, i)
  {
    var j := ms[i].fill;
    HeardFrom(ms[..i], j);
    if Heard(ms[..i]) > j {
      var k :| 0 <= k < i && (if ms[..i][k].OfFill? then ms[..i][k].fill >= j else ms[..i][k].fills > j);
      assert ms[k] == ms[..i][k];
    }
    if ReportedBefore(ms, i) {
      var k :| 0 <= k < i && ms[k].OfReport? && ms[k].fills > j;
      assert ms[..i][k] == ms[k];
    }
  }

  /** With notifications in order the row is right all along exactly when no message
      told of a fill before it was there, and no notification reaches it, while
      open, after a report that included its fill. */
  lemma LateNotificationsOnlyIff(o: Order, fills: seq<nat>, early: seq<Message>, ms: seq<Message>)
    requires WellFormed(o) && o.status == Accepted && FillsOf(o, fills)
    requires AllTruthful(fills, early) && AllTruthful(fills, ms) && InOrder(ms)
    ensures AlwaysHoldsAllHeard(o, fills, early, ms) <==>
      && NothingTold(early)
      && forall i :: 0 <= i < |ms| && ms[i].OfFill? && ReportedBefore(ms, i) ==> !IsOpen(RowAfter(o, fills, ms[..i]))
  {
    RowIsRightIff(o, fills, early, ms);
    forall i | 0 <= i < |ms| && ms[i].OfFill?
      ensures OutOfTurn(o, fills, ms, i) <==> IsOpen(RowAfter(o, fills, ms[..i])) && ReportedBefore(ms, i)
    {
      OutOfTurnIff(o, fills, ms, i);
    }
  }

  /** A row polled at 3 of 10 counts the fill of 3 again when its notification
      arrives afterwards. A later report hides the mistake: at 6 it is right. */
  lemma MixedChannelsCountTwice(o: Order)
    requires WellFormed(o) && o.status == Accepted && o.quantity == 10
    ensures var r := Report(3, 300.0, 100.0, Some(7), 0, false);
      RunOrder(o, [Polled(r), Notified(3, 100.0, 100.0)]).executedQuantity == 6
    ensures var r, late := Report(3, 300.0, 100.0, Some(7), 0, false), Report(6, 600.0, 100.0, Some(4), 0, false);
      RunOrder(o, [Polled(r), Notified(3, 100.0, 100.0), Polled(late)]).executedQuantity == 6
  {
    var r, late := Report(3, 300.0, 100.0, Some(7), 0, false), Report(6, 600.0, 100.0, Some(4), 0, false);
    var es := [Polled(r), Notified(3, 100.0, 100.0), Polled(late)];
    assert es[..2] == [Polled(r), Notified(3, 100.0, 100.0)];
    assert es[..2][..1] == [Polled(r)];
    assert es[..2][..1][..0] == [];
    assert RunOrder(o, es[..2][..1]) == StepOrder(o, Polled(r)).0;
    assert RunOrder(o, es[..2]) == StepOrder(RunOrder(o, es[..2][..1]), es[1]).0;
  }

  // ----- the amount -----

  /** What executions are worth at the prices they were recorded at. */
  function Worth(rs: seq<Recorded>): real {
    if |rs| == 0 then 0.0
    else
      var r := rs[|rs| - 1];
      Worth(rs[..|rs| - 1]) + r.executionPrice * r.appliedQty as real
  }

  /** The price of the last execution. */
  function LastPrice(rs: seq<Recorded>): real {
    if |rs| == 0 then 0.0 else rs[|rs| - 1].executionPrice
  }

  /** By how much the price moved on shares booked before: an execution at another
      price than the one before it leaves those at the old price. */
  function Drift(rs: seq<Recorded>): real {
    if |rs| == 0 then 0.0
    else
      var before, r := rs[..|rs| - 1], rs[|rs| - 1];
      Drift(before) + (r.executionPrice - LastPrice(before)) * r.previousExecutedQty as real
  }

  /** Each execution starts from the quantity the ones before it add up to. */
  ghost predicate Chained(rs: seq<Recorded>) {
    forall i :: 0 <= i < |rs| ==> StartsAfter(rs, i)
  }

  ghost predicate StartsAfter(rs: seq<Recorded>, i: nat)
    requires i < |rs|
  {
    rs[i].previousExecutedQty == SumBy(rs[..i], QtyOf())
  }

  lemma Reprice(last: real, price: real, before: int, applied: int, worth: real, drift: real)
    requires worth == last * before as real - drift
    ensures worth + price * applied as real
         == price * (before + applied) as real - (drift + (price - last) * before as real)
  {
    assert (before + applied) as real == before as real + applied as real;
  }

  /** The worth of chained executions is all shares at the last price, less the
      drift. */
  lemma {:induction false} WorthIsDrifted(rs: seq<Recorded>, qty: int)
    requires Chained(rs) && qty == SumBy(rs, QtyOf())
    ensures Worth(rs) == LastPrice(rs) * qty as real - Drift(rs)
  {
    if |rs| > 0 {
      var before, r := rs[..|rs| - 1], rs[|rs| - 1];
      assert Chained(before) by {
        forall i | 0 <= i < |before| ensures StartsAfter(before, i) {
          assert StartsAfter(rs, i) && before[..i] == rs[..i];
        }
      }
      assert StartsAfter(rs, |rs| - 1);
      WorthIsDrifted(before, r.previousExecutedQty);
      Reprice(LastPrice(before), r.executionPrice, r.previousExecutedQty, r.appliedQty, Worth(before), Drift(before));
    }
  }

  lemma {:induction false} ReportedIsChained(o: Order, es: seq<Event>)
    requires WellFormed(o) && o.status == Accepted
    ensures Chained(Reported(o, es))
  {
    if |es| > 0 {
      var init := es[..|es| - 1];
      var before, rs := Reported(o, init), Reported(o, es);
      ReportedIsChained(o, init);
      RunKeepsOrder(o, init);
      StepKeepsOrder(RunOrder(o, init), es[|es| - 1]);
      forall i | 0 <= i < |rs| ensures StartsAfter(rs, i) {
        assert rs[..i] == before[..i];
        assert i < |before| ==> StartsAfter(before, i);
        assert before[..|before|] == before;
      }
    }
  }

  /** Equal but for half a won per execution. */
  predicate NearWon(amount: int, worth: real, executions: nat) {
    AbsReal(amount as real - worth) <= 0.5 * executions as real
  }

  /** Rounding to whole won costs at most half a won per execution. */
  lemma {:induction false} AmountNearWorth(rs: seq<Recorded>)
    ensures NearWon(SumBy(rs, AmountOf()), Worth(rs), |rs|)
  {
    if |rs| > 0 {
      AmountNearWorth(rs[..|rs| - 1]);
    }
  }

  /** Every execution is worth a whole number of won. */
  ghost predicate WholeWon(rs: seq<Recorded>) {
    forall i :: 0 <= i < |rs| ==> Amount(rs[i]) as real == rs[i].executionPrice * rs[i].appliedQty as real
  }

  lemma {:induction false} WholeAmountIsWorth(rs: seq<Recorded>)
    requires WholeWon(rs)
    ensures SumBy(rs, AmountOf()) as real == Worth(rs)
  {
    if |rs| > 0 {
      WholeAmountIsWorth(rs[..|rs| - 1]);
    }
  }

  /** The row books what its executions add up to. */
  ghost predicate Totals(row: Order, rs: seq<Recorded>) {
    && Chained(rs)
    && row.executedQuantity == SumBy(rs, QtyOf())
    && row.executedAmount == SumBy(rs, AmountOf())
  }

  lemma RunTotals(o: Order, es: seq<Event>)
    requires WellFormed(o) && o.status == Accepted && o.executedAmount == 0
    ensures Totals(RunOrder(o, es), Reported(o, es))
  {
    RunKeepsOrder(o, es);
    ReportedIsChained(o, es);
  }

  lemma TotalsAreNear(row: Order, rs: seq<Recorded>)
    requires Totals(row, rs)
    ensures NearWon(row.executedAmount, Worth(rs), |rs|)
    ensures WholeWon(rs) ==> row.executedAmount as real == Worth(rs)
  {
    AmountNearWorth(rs);
    if WholeWon(rs) {
      WholeAmountIsWorth(rs);
    }
  }

  /** Over any run of either channel the row holds the shares of its executions, each
      counted from where the one before left off, and books their worth within half a
      won each; `WorthIsDrifted` says what that is. */
  lemma AmountIsWorth(o: Order, es: seq<Event>)
    requires WellFormed(o) && o.status == Accepted && o.executedAmount == 0
    ensures var row, rs := RunOrder(o, es), Reported(o, es);
      && Chained(rs) && row.executedQuantity == SumBy(rs, QtyOf())
      && NearWon(row.executedAmount, Worth(rs), |rs|)
      && (WholeWon(rs) ==> row.executedAmount as real == Worth(rs))
  {
    RunTotals(o, es);
    TotalsAreNear(RunOrder(o, es), Reported(o, es));
  }

  /** The price a notification brings: its own, or that of its order. */
  function NotifiedPrice(e: Event): real
    requires e.Notified?
  {
    if e.price != 0.0 then e.price else e.orderPrice
  }

  /** The shares the last notification of a run adds, up to the quantity of the order. */
  function NotifiedQty(quantity: int, es: seq<Event>): int
    requires OnlyNotifications(es) && |es| > 0
  {
    MinInt(quantity, TotalNotified(es)) - MinInt(quantity, TotalNotified(es[..|es| - 1]))
  }

  /** What they are worth at the price it brings. */
  function NotifiedPart(quantity: int, es: seq<Event>): real
    requires OnlyNotifications(es) && |es| > 0
  {
    assert es[|es| - 1] in es;
    NotifiedPrice(es[|es| - 1]) * NotifiedQty(quantity, es) as real
  }

  /** What all notifications of a run are worth. */
  function NotifiedWorth(quantity: int, es: seq<Event>): real
    requires OnlyNotifications(es)
  {
    if |es| == 0 then 0.0
    else NotifiedWorth(quantity, es[..|es| - 1]) + NotifiedPart(quantity, es)
  }

  /** The executions are those the notifications tell of: each that adds shares gives
      one of its price and quantity. */
  ghost predicate ToldBy(quantity: int, es: seq<Event>, rs: seq<Recorded>)
    requires OnlyNotifications(es)
    decreases |es|
  {
    if |es| == 0 then rs == []
    else
      assert es[|es| - 1] in es;
      var n, qty := |rs| - 1, NotifiedQty(quantity, es);
      if qty == 0 then ToldBy(quantity, es[..|es| - 1], rs)
      else
        && n >= 0 && ToldBy(quantity, es[..|es| - 1], rs[..n])
        && rs[n].executionPrice == NotifiedPrice(es[|es| - 1]) && rs[n].appliedQty == qty
  }

  /** One notification more: an execution of its price and quantity, or none. */
  predicate Extends(rs: seq<Recorded>, rs': seq<Recorded>, price: real, qty: int) {
    if qty == 0 then rs' == rs
    else |rs'| == |rs| + 1 && rs'[..|rs|] == rs && rs'[|rs|].executionPrice == price && rs'[|rs|].appliedQty == qty
  }

  lemma NotifiedExtends(o: Order, es: seq<Event>)
    requires WellFormed(o) && o.status == Accepted && OnlyNotifications(es) && |es| > 0
    ensures es[|es| - 1] in es
    ensures Extends(Reported(o, es[..|es| - 1]), Reported(o, es), NotifiedPrice(es[|es| - 1]),
                    NotifiedQty(o.quantity, es))
  {
    var init, e := es[..|es| - 1], es[|es| - 1];
    assert e in es;
    NotificationsAloneAddUp(o, init);
    NotificationsAloneAddUp(o, es);
    RunKeepsOrder(o, init);
    StepKeepsOrder(RunOrder(o, init), e);
    if StepOrder(RunOrder(o, init), e).1.Some? {
      RecordedPrice(RunOrder(o, init), e);
    }
  }

  lemma ToldNext(quantity: int, es: seq<Event>, rs: seq<Recorded>, rs': seq<Recorded>)
    requires OnlyNotifications(es) && |es| > 0 && es[|es| - 1] in es && ToldBy(quantity, es[..|es| - 1], rs)
    requires Extends(rs, rs', NotifiedPrice(es[|es| - 1]), NotifiedQty(quantity, es))
    ensures ToldBy(quantity, es, rs')
  {
  }

  lemma {:induction false} ReportedIsTold(o: Order, es: seq<Event>)
    requires WellFormed(o) && o.status == Accepted && OnlyNotifications(es)
    ensures ToldBy(o.quantity, es, Reported(o, es))
  {
    if |es| > 0 {
      ReportedIsTold(o, es[..|es| - 1]);
      NotifiedExtends(o, es);
      ToldNext(o.quantity, es, Reported(o, es[..|es| - 1]), Reported(o, es));
    }
  }

  lemma {:induction false} ToldIsWorth(quantity: int, es: seq<Event>, rs: seq<Recorded>)
    requires OnlyNotifications(es) && ToldBy(quantity, es, rs)
    ensures Worth(rs) == NotifiedWorth(quantity, es)
    decreases |es|
  {
    if |es| > 0 {
      var init := es[..|es| - 1];
      if NotifiedQty(quantity, es) == 0 {
        ToldIsWorth(quantity, init, rs);
      } else {
        ToldIsWorth(quantity, init, rs[..|rs| - 1]);
      }
    }
  }

  /** Notified alone, a row books what the notifications were worth at the prices they
      brought, within half a won for each execution. */
  lemma NotifiedAmount(o: Order, es: seq<Event>)
    requires WellFormed(o) && o.status == Accepted && o.executedAmount == 0 && OnlyNotifications(es)
    ensures NearWon(RunOrder(o, es).executedAmount, NotifiedWorth(o.quantity, es), |Reported(o, es)|)
  {
    AmountIsWorth(o, es);
    ReportedIsTold(o, es);
    ToldIsWorth(o.quantity, es, Reported(o, es));
  }

  /** A report that adds shares to the row and whose total is its average price, if it
      has one, times its quantity. */
  predicate AddsUp(row: Order, r: Report) {
    && IsOpen(row) && row.executedQuantity < r.cumulativeQty <= row.quantity
    && (r.averagePrice != 0.0 ==> r.totalAmount == r.averagePrice * r.cumulativeQty as real)
  }

  lemma AddsUpBooks(o: Order, es: seq<Event>, r: Report)
    requires WellFormed(o) && AddsUp(RunOrder(o, es), r)
    ensures RunOrder(o, es + [Polled(r)]).executedQuantity == r.cumulativeQty
    ensures LastPrice(Reported(o, es + [Polled(r)])) == ReportPrice(r)
  {
    var all := es + [Polled(r)];
    assert all[..|all| - 1] == es;
    RunKeepsOrder(o, es);
  }

  /** The price recorded for a report comes to its total. */
  predicate TotalIsPriced(r: Report) { r.totalAmount == ReportPrice(r) * r.cumulativeQty as real }

  lemma AddsUpIsPriced(row: Order, r: Report)
    requires WellFormed(row) && AddsUp(row, r)
    ensures TotalIsPriced(r)
  {
  }

  lemma ReportDrifts(row: Order, rs: seq<Recorded>, r: Report)
    requires Totals(row, rs) && row.executedQuantity == r.cumulativeQty
    requires LastPrice(rs) == ReportPrice(r) && TotalIsPriced(r)
    ensures Worth(rs) == r.totalAmount - Drift(rs)
  {
    WorthIsDrifted(rs, row.executedQuantity);
  }

  /** A poll brings the quantity up to date and not the amount: after any run and
      such a report the row books the broker's total less the drift of the prices,
      within half a won per execution; without rounding it books the total exactly
      when the drift is zero. */
  lemma PolledAmountIff(o: Order, es: seq<Event>, r: Report)
    requires WellFormed(o) && o.status == Accepted && o.executedAmount == 0 && AddsUp(RunOrder(o, es), r)
    ensures var row, rs := RunOrder(o, es + [Polled(r)]), Reported(o, es + [Polled(r)]);
      && row.executedQuantity == r.cumulativeQty
      && NearWon(row.executedAmount, r.totalAmount - Drift(rs), |rs|)
      && (WholeWon(rs) ==> (row.executedAmount as real == r.totalAmount <==> Drift(rs) == 0.0))
  {
    var row, rs := RunOrder(o, es + [Polled(r)]), Reported(o, es + [Polled(r)]);
    RunTotals(o, es + [Polled(r)]);
    AddsUpBooks(o, es, r);
    RunKeepsOrder(o, es);
    AddsUpIsPriced(RunOrder(o, es), r);
    ReportDrifts(row, rs, r);
    TotalsAreNear(row, rs);
  }

  /** Polled at 3 shares for 300 won and then at 6 for 660, the row books 630. */
  lemma PolledAmountFallsShort(o: Order)
    requires WellFormed(o) && o.status == Accepted && o.executedAmount == 0 && o.quantity == 10
    ensures var first, second := Report(3, 300.0, 100.0, Some(7), 0, false), Report(6, 660.0, 110.0, Some(4), 0, false);
      RunOrder(o, [Polled(first), Polled(second)]).executedAmount == 630
  {
    var first, second := Report(3, 300.0, 100.0, Some(7), 0, false), Report(6, 660.0, 110.0, Some(4), 0, false);
    var es := [Polled(first), Polled(second)];
    assert es[..1] == [Polled(first)];
    assert es[..1][..0] == [];
    assert RunOrder(o, es[..1]) == StepOrder(o, Polled(first)).0;
  }
}
