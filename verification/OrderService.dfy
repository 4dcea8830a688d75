/** The order service as the program has it: rows that are objects, changed in
    place by each call. Every method is proved against the functions of
    OrderLedger, whose lemmas say what the calls promise. */
module OrderService {
  import opened Numbers
  import opened OrderLedger

  class TradeHistory {
    const user: int
    const stock: string
    const side: Side
    const division: Division
    const quantity: int
    const price: real
    const orderNo: Option<string>
    const meta: Meta
    var status: Status
    var executedQuantity: int
    var executedAmount: int

    constructor (user: int, stock: string, side: Side, division: Division, quantity: int, price: real,
                 status: Status, orderNo: Option<string>, meta: Meta)
      ensures View() == Order(user, stock, side, division, quantity, price, status, 0, 0, orderNo, meta)
    {
      this.user, this.stock, this.side, this.division := user, stock, side, division;
      this.quantity, this.price, this.orderNo, this.meta := quantity, price, orderNo, meta;
      this.status, this.executedQuantity, this.executedAmount := status, 0, 0;
    }

    function View(): Order
      reads this
    {
      Order(user, stock, side, division, quantity, price, status, executedQuantity, executedAmount, orderNo, meta)
    }

    method ApplyExecutionToHistory(cumulativeQty: int, executionPrice: real) returns (r: Option<Recorded>)
      modifies this
      ensures (View(), r) == ApplyExecution(old(View()), cumulativeQty, executionPrice)
    {
      var previous := executedQuantity;
      var next := MinInt(quantity, MaxInt(previous, cumulativeQty));
      var applied := next - previous;
      if applied <= 0 {
        return None;
      }
      executedQuantity := next;
      executedAmount := executedAmount + Round(executionPrice * applied as real);
      status := if executedQuantity >= quantity then Executed else Partial;
      r := Some(Recorded(applied, previous, status == Executed, executionPrice));
    }

    method ApplyPolledOrder(order: Report) returns (r: Option<Recorded>)
      modifies this
      ensures (View(), r) == ApplyReport(old(View()), order)
    {
      var cumulative := MaxInt(0, order.cumulativeQty);
      var previous := executedQuantity;
      if cumulative <= 0 && (order.rejectedQty > 0 || order.canceled || NothingLeft(order)) {
        status := Failed;
        return None;
      }
      if previous > 0 && cumulative <= previous && NothingLeft(order) {
        status := Success;
        return None;
      }
      r := ApplyExecutionToHistory(cumulative, ReportPrice(order));
      if r.Some? && status != Executed && NothingLeft(order) {
        status := Success;
      }
    }
  }

  class KisOrderService {
    var rows: seq<TradeHistory>

    ghost predicate Valid()
      reads this
    {
      forall i, j :: 0 <= i < j < |rows| ==> rows[i] != rows[j]
    }

    /** The rows as values, oldest first. */
    ghost function Ledger(): (orders: seq<Order>)
      reads this, rows
      ensures |orders| == |rows|
      ensures forall i :: 0 <= i < |rows| ==> orders[i] == rows[i].View()
    {
      seq(|rows|, i requires 0 <= i < |rows| reads this, rows => rows[i].View())
    }

    constructor ()
      ensures Valid() && Ledger() == []
    {
      rows := [];
    }

    /** The query for the newest open row with an order number. */
    method FindOpenRow(orderNo: string) returns (k: Option<nat>)
      ensures k == FindOpen(Ledger(), orderNo)
    {
      var i := |rows|;
      ghost var orders := Ledger();
      while i > 0
        invariant 0 <= i <= |rows|
        invariant FindOpen(orders[..i], orderNo) == FindOpen(orders, orderNo)
      {
        assert orders[..i][..i - 1] == orders[..i - 1];
        if (rows[i - 1].status == Accepted || rows[i - 1].status == Partial) && rows[i - 1].orderNo == Some(orderNo) {
          return Some(i - 1);
        }
        i := i - 1;
      }
      k := None;
    }

    /** A write that fails is only logged. */
    method SaveHistory(row: TradeHistory, saved: bool)
      requires Valid() && row !in rows
      modifies this
      ensures Valid() && rows == if saved then old(rows) + [row] else old(rows)
      ensures Ledger() == if saved then old(Ledger()) + [row.View()] else old(Ledger())
    {
      if saved {
        rows := rows + [row];
      }
    }

    /** Places an order with the broker, whose answer is `reply`. A row is written
        whatever the answer, unless the write fails, which the caller does not
        notice; a request the service itself rejects, or cannot prepare, leaves no
        row. */
    method OrderCash(user: int, stock: string, side: Side, division: Division, qty: int, price: real,
                     meta: Meta, reply: Reply) returns (taken: bool)
      requires Valid()
      modifies this
      ensures Valid()
      ensures forall r :: r in rows && r !in old(rows) ==> fresh(r)
      ensures (Ledger(), taken) == PlaceOrder(old(Ledger()), user, stock, side, division, qty, price, meta, reply)
    {
      if qty <= 0 || price < 0.0 {
        return false;
      }
      if division != Market && price <= 0.0 {
        return false;
      }
      if reply.NotSent? {
        return false;
      }
      var status := if reply.Taken? then Accepted else Failed;
      var orderNo := if reply.Unreachable? then None else reply.orderNo;
      var row := new TradeHistory(user, stock, side, division, qty, price, status, orderNo, meta);
      SaveHistory(row, reply.saved);
      taken := reply.Taken?;
    }

    method RecordExecutionNotification(orderNo: string, qty: int, price: real, orderPrice: real)
      returns (r: Option<(nat, Recorded)>)
      requires Valid()
      modifies rows
      ensures Valid()
      ensures (Ledger(), r) == StepLedger(old(Ledger()), orderNo, Notified(qty, price, orderPrice))
    {
      var k := FindOpenRow(orderNo);
      if k.None? {
        return None;
      }
      var history := rows[k.value];
      var cumulative := history.executedQuantity + MaxInt(0, qty);
      var applied := history.ApplyExecutionToHistory(cumulative, OrElse(price, orderPrice));
      assert Ledger() == old(Ledger())[k.value := history.View()];
      r := if applied.Some? then Some((k.value, applied.value)) else None;
    }

    method RecordPolledOrderExecution(orderNo: string, order: Report) returns (r: Option<(nat, Recorded)>)
      requires Valid()
      modifies rows
      ensures Valid()
      ensures (Ledger(), r) == StepLedger(old(Ledger()), orderNo, Polled(order))
    {
      var k := FindOpenRow(orderNo);
      if k.None? {
        return None;
      }
      var history := rows[k.value];
      var applied := history.ApplyPolledOrder(order);
      assert Ledger() == old(Ledger())[k.value := history.View()];
      r := if applied.Some? then Some((k.value, applied.value)) else None;
    }

    method MarkOrderRejected(orderNo: string) returns (k: Option<nat>)
      requires Valid()
      modifies rows
      ensures Valid()
      ensures k == FindOpen(old(Ledger()), orderNo)
      ensures Ledger() == StepLedger(old(Ledger()), orderNo, Rejected).0
    {
      k := FindOpenRow(orderNo);
      if k.None? {
        return;
      }
      rows[k.value].status := Failed;
      assert Ledger() == old(Ledger())[k.value := rows[k.value].View()];
    }
  }
}
