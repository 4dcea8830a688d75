/** The order history: one row per order, fed by two channels. Notifications
    carry the quantity of one fill, polls carry the cumulative quantity. */
module OrderLedger {
  import opened Numbers

  datatype Side = Buy | Sell

  datatype Division = Limit | Market

  datatype Status = Accepted | Partial | Executed | Success | Failed

  /** What the trading service stores with an order. `sessionId` is 0 for an
      order that belongs to no session. */
  datatype Meta = Meta(sessionId: int, pauseAfterSell: bool, stage: Option<int>)

  datatype Order = Order(
    user: int, stock: string, side: Side, division: Division, quantity: int, price: real,
    status: Status, executedQuantity: int, executedAmount: int, orderNo: Option<string>, meta: Meta)

  /** What one call reports back about the execution it recorded. */
  datatype Recorded = Recorded(
    appliedQty: int, previousExecutedQty: int, isFullyExecuted: bool, executionPrice: real)

  /** One line of the daily order inquiry. `remaining` is None when the field is
      not a number; the other fields read as 0 then. */
  datatype Report = Report(
    cumulativeQty: int, totalAmount: real, averagePrice: real,
    remaining: Option<int>, rejectedQty: int, canceled: bool)

  predicate IsOpen(o: Order) { o.status == Accepted || o.status == Partial }

  /** What the broker answers, and whether the history write after it succeeds.
      Unreachable stands for a request that throws, and NotSent for headers or a
      hash key that could not be had before it. */
  datatype Reply =
    | Taken(orderNo: Option<string>, saved: bool)
    | Refused(orderNo: Option<string>, saved: bool)
    | Unreachable(saved: bool)
    | NotSent

  // ----- placing an order -----

  /** Requests the order service rejects before it talks to the broker. */
  predicate ValidRequest(division: Division, qty: int, price: real) {
    qty > 0 && price >= 0.0 && (division == Limit ==> price > 0.0)
  }

  function NewRow(user: int, stock: string, side: Side, division: Division, qty: int, price: real,
                  meta: Meta, reply: Reply): Order {
    match reply
    case Taken(no, _) => Order(user, stock, side, division, qty, price, Accepted, 0, 0, no, meta)
    case Refused(no, _) => Order(user, stock, side, division, qty, price, Failed, 0, 0, no, meta)
    case _ => Order(user, stock, side, division, qty, price, Failed, 0, 0, None, meta)
  }

  /** The history and whether the broker took the order. A write that fails leaves
      no row and does not change the answer. */
  function PlaceOrder(orders: seq<Order>, user: int, stock: string, side: Side, division: Division,
                      qty: int, price: real, meta: Meta, reply: Reply): (seq<Order>, bool) {
    if !ValidRequest(division, qty, price) || reply.NotSent? then (orders, false)
    else
      (if reply.saved then orders + [NewRow(user, stock, side, division, qty, price, meta, reply)] else orders,
       reply.Taken?)
  }

  /** Exactly when a row is written, which one, and when the caller hears that the
      order was taken. */
  lemma PlacingWritesIff(orders: seq<Order>, user: int, stock: string, side: Side, division: Division,
                         qty: int, price: real, meta: Meta, reply: Reply)
    ensures var (orders', taken) := PlaceOrder(orders, user, stock, side, division, qty, price, meta, reply);
      var sent := qty > 0 && (if division == Limit then price > 0.0 else price >= 0.0) && !reply.NotSent?;
      && (taken <==> sent && reply.Taken?)
      && (if !(sent && reply.saved) then orders' == orders
          else
            && |orders'| == |orders| + 1 && orders'[..|orders|] == orders
            && var o := orders'[|orders|];
               && o.user == user && o.stock == stock && o.side == side && o.division == division
               && o.quantity == qty && o.price == price && o.meta == meta
               && o.executedQuantity == 0 && o.executedAmount == 0
               && o.status == (if taken then Accepted else Failed)
               && o.orderNo == (if reply.Unreachable? then None else reply.orderNo))
  {
  }

  // ----- one call on one open row -----

  function ApplyExecution(o: Order, cumulativeQty: int, price: real): (Order, Option<Recorded>) {
    var next := MinInt(o.quantity, MaxInt(o.executedQuantity, cumulativeQty));
    var applied := next - o.executedQuantity;
    if applied <= 0 then (o, None)
    else
      var status := if next >= o.quantity then Executed else Partial;
      (o.(executedQuantity := next,
          executedAmount := o.executedAmount + Round(price * applied as real),
          status := status),
       Some(Recorded(applied, o.executedQuantity, status == Executed, price)))
  }

  function ApplyNotification(o: Order, qty: int, price: real, orderPrice: real): (Order, Option<Recorded>) {
    ApplyExecution(o, o.executedQuantity + MaxInt(0, qty), OrElse(price, orderPrice))
  }

  /** The price a report stands for: its average, or amount over quantity. */
  function ReportPrice(r: Report): real {
    var cumulative := MaxInt(0, r.cumulativeQty);
    if r.averagePrice != 0.0 then r.averagePrice
    else if cumulative > 0 then r.totalAmount / cumulative as real
    else 0.0
  }

  predicate NothingLeft(r: Report) { r.remaining.Some? && r.remaining.value <= 0 }

  function ApplyReport(o: Order, r: Report): (Order, Option<Recorded>) {
    var cumulative := MaxInt(0, r.cumulativeQty);
    if cumulative <= 0 && (r.rejectedQty > 0 || r.canceled || NothingLeft(r)) then
      (o.(status := Failed), None)
    else if o.executedQuantity > 0 && cumulative <= o.executedQuantity && NothingLeft(r) then
      (o.(status := Success), None)
    else
      var (o', applied) := ApplyExecution(o, cumulative, ReportPrice(r));
      if applied.Some? && o'.status != Executed && NothingLeft(r)
      then (o'.(status := Success), applied)
      else (o', applied)
  }

  // ----- calls on the whole history -----

  /** The newest open row with this order number: rows are kept in the order of
      their creation. */
  function FindOpen(orders: seq<Order>, orderNo: string): (k: Option<nat>)
    ensures k.Some? ==> k.value < |orders| && IsOpen(orders[k.value]) && orders[k.value].orderNo == Some(orderNo)
    ensures k.Some? ==>
      forall j :: k.value < j < |orders| ==> !(IsOpen(orders[j]) && orders[j].orderNo == Some(orderNo))
    ensures k.None? ==> forall j :: 0 <= j < |orders| ==> !(IsOpen(orders[j]) && orders[j].orderNo == Some(orderNo))
  {
    if |orders| == 0 then None
    else
      var n := |orders| - 1;
      if IsOpen(orders[n]) && orders[n].orderNo == Some(orderNo) then Some(n)
      else FindOpen(orders[..n], orderNo)
  }

  datatype Event =
    | Notified(qty: int, price: real, orderPrice: real)
    | Polled(report: Report)
    | Rejected

  /** One event reaching one row; a closed row is never found again. */
  function StepOrder(o: Order, e: Event): (Order, Option<Recorded>) {
    if !IsOpen(o) then (o, None)
    else match e
      case Notified(qty, price, orderPrice) => ApplyNotification(o, qty, price, orderPrice)
      case Polled(report) => ApplyReport(o, report)
      case Rejected => (o.(status := Failed), None)
  }

  /** One event reaching the history: it changes the row it finds, or nothing. */
  function StepLedger(orders: seq<Order>, orderNo: string, e: Event): (seq<Order>, Option<(nat, Recorded)>) {
    match FindOpen(orders, orderNo)
    case None => (orders, None)
    case Some(k) =>
      var (o', recorded) := StepOrder(orders[k], e);
      (orders[k := o'], if recorded.Some? then Some((k, recorded.value)) else None)
  }

  // ----- what a row means -----

  /** Status and executed quantity agree. A row that was closed early keeps its
      fills: Success is a partial fill with nothing left, Failed may carry one. */
  predicate WellFormed(o: Order) {
    && 0 <= o.executedQuantity <= o.quantity
    && 0 < o.quantity
    && (o.status == Accepted ==> o.executedQuantity == 0)
    && (o.status == Partial || o.status == Success ==> 0 < o.executedQuantity)
    && (o.status == Executed <==> o.executedQuantity == o.quantity)
  }

  predicate SameTerms(o: Order, p: Order) {
    p == o.(status := p.status, executedQuantity := p.executedQuantity, executedAmount := p.executedAmount)
  }

  /** The won amount one execution adds to its row. */
  function Amount(r: Recorded): int { Round(r.executionPrice * r.appliedQty as real) }

  function AppliedQty(r: Option<Recorded>): int { if r.Some? then r.value.appliedQty else 0 }

  function AppliedAmount(r: Option<Recorded>): int { if r.Some? then Amount(r.value) else 0 }

  /** What every event keeps: the row stays well-formed on its terms, and books
      exactly what is reported. */
  predicate BookedAsReported(o: Order, o': Order, r: Option<Recorded>) {
    && WellFormed(o') && SameTerms(o, o')
    && o'.executedQuantity == o.executedQuantity + AppliedQty(r)
    && o'.executedAmount == o.executedAmount + AppliedAmount(r)
    && (r.Some? ==>
          && r.value.appliedQty > 0
          && r.value.previousExecutedQty == o.executedQuantity
          && (r.value.isFullyExecuted <==> o'.executedQuantity == o'.quantity))
  }

  lemma ExecutionIsBooked(o: Order, cumulativeQty: int, price: real)
    requires WellFormed(o) && IsOpen(o)
    ensures BookedAsReported(o, ApplyExecution(o, cumulativeQty, price).0, ApplyExecution(o, cumulativeQty, price).1)
  {
  }

  lemma ReportIsBooked(o: Order, r: Report)
    requires WellFormed(o) && IsOpen(o)
    ensures BookedAsReported(o, ApplyReport(o, r).0, ApplyReport(o, r).1)
  {
    ExecutionIsBooked(o, MaxInt(0, r.cumulativeQty), ReportPrice(r));
  }

  /** Every event keeps a row well-formed, books exactly what it reports, never
      takes a fill back and never touches the terms of the order. */
  lemma StepKeepsOrder(o: Order, e: Event)
    requires WellFormed(o)
    ensures var (o', r) := StepOrder(o, e);
      && WellFormed(o') && SameTerms(o, o')
      && o'.executedQuantity == o.executedQuantity + AppliedQty(r)
      && o'.executedAmount == o.executedAmount + AppliedAmount(r)
      && (r.Some? ==>
            && r.value.appliedQty > 0
            && r.value.previousExecutedQty == o.executedQuantity
            && (r.value.isFullyExecuted <==> o'.executedQuantity == o'.quantity))
      && (!IsOpen(o) ==> o' == o && r == None)
  {
    if IsOpen(o) {
      match e
      case Notified(qty, price, orderPrice) =>
        ExecutionIsBooked(o, o.executedQuantity + MaxInt(0, qty), OrElse(price, orderPrice));
      case Polled(report) => ReportIsBooked(o, report);
      case Rejected =>
    }
  }

  function RunOrder(o: Order, es: seq<Event>): Order {
    if |es| == 0 then o else StepOrder(RunOrder(o, es[..|es| - 1]), es[|es| - 1]).0
  }

  /** The executions the calls of a run returned, in order. */
  function Reported(o: Order, es: seq<Event>): seq<Recorded> {
    if |es| == 0 then []
    else
      var r := StepOrder(RunOrder(o, es[..|es| - 1]), es[|es| - 1]).1;
      Reported(o, es[..|es| - 1]) + (if r.Some? then [r.value] else [])
  }

  function QtyOf(): Recorded -> int { (r: Recorded) => r.appliedQty }

  function AmountOf(): Recorded -> int { (r: Recorded) => Amount(r) }

  lemma ReportedStep(o: Order, es: seq<Event>)
    requires |es| > 0
    ensures var init := es[..|es| - 1]; var r := StepOrder(RunOrder(o, init), es[|es| - 1]).1;
      && SumBy(Reported(o, es), QtyOf()) == SumBy(Reported(o, init), QtyOf()) + AppliedQty(r)
      && SumBy(Reported(o, es), AmountOf()) == SumBy(Reported(o, init), AmountOf()) + AppliedAmount(r)
  {
    var init := es[..|es| - 1];
    var r := StepOrder(RunOrder(o, init), es[|es| - 1]).1;
    if r.Some? {
      SumByAppend(Reported(o, init), r.value, QtyOf());
      SumByAppend(Reported(o, init), r.value, AmountOf());
    } else {
      assert Reported(o, es) == Reported(o, init);
    }
  }

  /** Whatever reaches a row, in whatever order and however often: it stays
      well-formed, and quantity and amount are the sums of what was reported. */
  lemma {:induction false} RunKeepsOrder(o: Order, es: seq<Event>)
    requires WellFormed(o)
    ensures var o' := RunOrder(o, es);
      && WellFormed(o') && SameTerms(o, o')
      && o'.executedQuantity == o.executedQuantity + SumBy(Reported(o, es), QtyOf())
      && o'.executedAmount == o.executedAmount + SumBy(Reported(o, es), AmountOf())
      && o.executedQuantity <= o'.executedQuantity
  {
    if |es| > 0 {
      RunKeepsOrder(o, es[..|es| - 1]);
      StepKeepsOrder(RunOrder(o, es[..|es| - 1]), es[|es| - 1]);
      ReportedStep(o, es);
    }
  }

  /** Closed rows are absorbing. */
  lemma {:induction false} ClosedIsFinal(o: Order, es: seq<Event>)
    requires !IsOpen(o)
    ensures RunOrder(o, es) == o && Reported(o, es) == []
  {
    if |es| > 0 {
      ClosedIsFinal(o, es[..|es| - 1]);
    }
  }

  // ----- one channel alone -----

  predicate OnlyPolls(es: seq<Event>) { forall e :: e in es ==> e.Polled? }

  predicate OnlyNotifications(es: seq<Event>) { forall e :: e in es ==> e.Notified? }

  /** The largest cumulative quantity any report of the run carried. */
  function MaxReported(es: seq<Event>): nat
    requires OnlyPolls(es)
  {
    if |es| == 0 then 0
    else
      assert es[|es| - 1] in es;
      MaxInt(MaxReported(es[..|es| - 1]), es[|es| - 1].report.cumulativeQty)
  }

  /** The total quantity the notifications of the run carried. */
  function TotalNotified(es: seq<Event>): nat
    requires OnlyNotifications(es)
  {
    if |es| == 0 then 0
    else
      assert es[|es| - 1] in es;
      TotalNotified(es[..|es| - 1]) + MaxInt(0, es[|es| - 1].qty)
  }

  /** Exactly when a poll closes an open row, and as what: executed once the order is
      filled; failed when nothing was ever reported and nothing can come; successful
      when a part was filled and nothing is left. */
  lemma ReportClosesIff(o: Order, r: Report)
    requires WellFormed(o) && IsOpen(o)
    ensures var status, filled := ApplyReport(o, r).0.status, MaxInt(o.executedQuantity, r.cumulativeQty);
      var nothingLeft := r.remaining.Some? && r.remaining.value <= 0;
      && (status == Executed <==> filled >= o.quantity)
      && (status == Failed <==> r.cumulativeQty <= 0 && (r.rejectedQty > 0 || r.canceled || nothingLeft))
      && (status == Success <==> 0 < r.cumulativeQty && filled < o.quantity && nothingLeft)
  {
  }

  /** What an execution is recorded at. A notification that carries a price has that
      one, else the price of the order; a report has its average, and without one the
      price at which its whole quantity comes to its whole amount. */
  lemma RecordedPrice(o: Order, e: Event)
    requires WellFormed(o) && StepOrder(o, e).1.Some?
    ensures var p := StepOrder(o, e).1.value.executionPrice;
      && (e.Notified? && e.price != 0.0 ==> p == e.price)
      && (e.Notified? && e.price == 0.0 ==> p == e.orderPrice)
      && (e.Polled? && e.report.averagePrice != 0.0 ==> p == e.report.averagePrice)
      && (e.Polled? && e.report.averagePrice == 0.0 ==> p * e.report.cumulativeQty as real == e.report.totalAmount)
  {
    if e.Polled? {
      assert e.report.cumulativeQty > 0;
    }
  }

  /** Polled late, early or twice: an open row holds the largest quantity any
      report carried, so the order of the reports does not matter. */
  lemma {:induction false} PollsAloneAreExact(o: Order, es: seq<Event>)
    requires WellFormed(o) && o.status == Accepted && OnlyPolls(es)
    ensures IsOpen(RunOrder(o, es)) ==> RunOrder(o, es).executedQuantity == MaxReported(es) < o.quantity
    ensures RunOrder(o, es).executedQuantity <= MaxReported(es)
  {
    if |es| > 0 {
      var init := es[..|es| - 1];
      var last := es[|es| - 1];
      assert last in es;
      PollsAloneAreExact(o, init);
      RunKeepsOrder(o, init);
      StepKeepsOrder(RunOrder(o, init), last);
    }
  }

  /** Hearing the same report again changes nothing and reports nothing. */
  lemma ReplayedReportIsNoOp(o: Order, r: Report)
    requires WellFormed(o)
    ensures var once := StepOrder(o, Polled(r)).0;
      StepOrder(once, Polled(r)) == (once, None)
  {
    if IsOpen(o) {
      ReportClosesIff(o, r);
      StepKeepsOrder(o, Polled(r));
    }
  }

  /** Notified alone, a row holds what the notifications add up to, up to the
      quantity of the order. */
  lemma {:induction false} NotificationsAloneAddUp(o: Order, es: seq<Event>)
    requires WellFormed(o) && o.status == Accepted && OnlyNotifications(es)
    ensures RunOrder(o, es).executedQuantity == MinInt(o.quantity, TotalNotified(es))
    ensures IsOpen(RunOrder(o, es)) <==> TotalNotified(es) < o.quantity
  {
    if |es| > 0 {
      var init := es[..|es| - 1];
      assert es[|es| - 1] in es;
      NotificationsAloneAddUp(o, init);
      RunKeepsOrder(o, init);
      StepKeepsOrder(RunOrder(o, init), es[|es| - 1]);
    }
  }
}
