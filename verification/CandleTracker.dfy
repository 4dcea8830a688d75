/** The tracker as the program has it: one mutable state per stock, changed in
    place by every execution. Each method is proved against Candles. */
module CandleTracker {
  import opened Numbers
  import opened Clock
  import C = Candles

  /** An execution as the feed delivers it. `price` is None when it is not a
      finite number. */
  datatype Execution = Execution(
    stockCode: string, time: string, price: Option<real>, volume: int,
    hourClsCode: Option<string>, tradingHalt: bool, quote: C.Quote)

  /** The tick an execution stands for: it needs a positive price and a time
      that a clock shows. */
  function TickOf(e: Execution): Option<C.Tick> {
    if e.price.None? || e.price.value <= 0.0 then None
    else match ReadTime(e.time)
      case None => None
      case Some(stamp) =>
        Some(C.Tick(stamp, e.price.value, e.volume, e.hourClsCode == Some("0") && !e.tradingHalt, e.quote))
  }

  function StateOf(states: map<string, C.StockState>, code: string): C.StockState {
    if code in states then states[code] else C.EMPTY
  }

  function RecordExecution(maxCandles: nat, states: map<string, C.StockState>, e: Execution, receivedAt: int)
    : map<string, C.StockState>
  {
    match TickOf(e)
    case None => states
    case Some(t) => states[e.stockCode := C.Record(maxCandles, StateOf(states, e.stockCode), t, receivedAt)]
  }

  /** The states after a stream of executions of many stocks. */
  function RecordStream(maxCandles: nat, es: seq<(Execution, int)>): map<string, C.StockState> {
    if |es| == 0 then map[]
    else
      var last := es[|es| - 1];
      RecordExecution(maxCandles, RecordStream(maxCandles, es[..|es| - 1]), last.0, last.1)
  }

  /** The ticks of one stock in the stream. */
  function TicksOf(es: seq<(Execution, int)>, code: string): seq<(C.Tick, int)> {
    if |es| == 0 then []
    else
      var last, before := es[|es| - 1], TicksOf(es[..|es| - 1], code);
      var t := TickOf(last.0);
      if last.0.stockCode == code && t.Some? then before + [(t.value, last.1)] else before
  }

  /** Each stock sees its own ticks, whatever else the stream carries. */
  lemma {:induction false} StocksAreIndependent(maxCandles: nat, es: seq<(Execution, int)>, code: string)
    ensures StateOf(RecordStream(maxCandles, es), code) == C.RecordAll(maxCandles, TicksOf(es, code))
  {
    if |es| > 0 {
      var last, init := es[|es| - 1], es[..|es| - 1];
      StocksAreIndependent(maxCandles, init, code);
      var t := TickOf(last.0);
      if last.0.stockCode == code && t.Some? {
        assert TicksOf(es, code)[..|TicksOf(es, code)| - 1] == TicksOf(init, code);
      }
    }
  }

  class IntradayStockState {
    var current: Option<C.Candle>
    var completed: seq<C.Candle>
    var latestExecution: Option<Execution>
    var latestReceivedAt: Option<int>
    var lastExecutionTime: Option<string>

    constructor ()
      ensures Valid() && View() == C.EMPTY
    {
      current, completed := None, [];
      latestExecution, latestReceivedAt, lastExecutionTime := None, None, None;
    }

    ghost predicate Valid()
      reads this
    {
      && (lastExecutionTime.Some? ==> ReadTime(lastExecutionTime.value).Some?)
      && (latestExecution.Some? ==> TickOf(latestExecution.value).Some?)
    }

    ghost function View(): C.StockState
      reads this
      requires Valid()
    {
      C.StockState(
        current, completed,
        if latestExecution.Some? then TickOf(latestExecution.value) else None,
        latestReceivedAt,
        if lastExecutionTime.Some? then ReadTime(lastExecutionTime.value) else None)
    }

    method Keep(e: Execution, receivedAt: int)
      requires Valid() && TickOf(e).Some?
      modifies this
      ensures Valid() && View() == C.Seen(old(View()), TickOf(e).value, receivedAt)
    {
      latestExecution := Some(e);
      latestReceivedAt := Some(receivedAt);
      lastExecutionTime := Some(e.time);
    }

    /** Drops a late execution; begins anew when the time went far back. */
    method Rewind(e: Execution, minute: nat) returns (late: bool)
      requires Valid() && TickOf(e).Some? && minute == TickOf(e).value.stamp.minute
      modifies this`current, this`completed
      ensures Valid() && late == C.Late(old(View()), TickOf(e).value)
      ensures View() == if !late && C.Rewound(old(View()), TickOf(e).value)
                        then old(View()).(current := None, completed := []) else old(View())
    {
      if lastExecutionTime.Some? {
        TextOrderIsTimeOrder(e.time, lastExecutionTime.value);
      }
      if lastExecutionTime.Some? && Before(e.time, lastExecutionTime.value) {
        if current.None? || current.value.minute - minute < C.DAY_RESET_MINUTES {
          return true;
        }
        current := None;
        completed := [];
      }
      late := false;
    }

    /** The part of `record` that works on the state of one stock. */
    method Take(e: Execution, minute: nat, maxCandles: nat, receivedAt: int)
      requires Valid() && TickOf(e).Some? && minute == TickOf(e).value.stamp.minute
      modifies this
      ensures Valid() && View() == C.Record(maxCandles, old(View()), TickOf(e).value, receivedAt)
    {
      var late := Rewind(e, minute);
      if late {
        return;
      }
      if e.hourClsCode != Some("0") || e.tradingHalt {
        Keep(e, receivedAt);
        return;
      }
      var price, volume := e.price.value, AbsInt(e.volume);
      if current.None? {
        current := Some(C.Candle(minute, e.time, price, price, price, price, volume));
      } else if minute == current.value.minute {
        var candle := current.value;
        current := Some(candle.(time := e.time, high := MaxReal(candle.high, price),
                                low := MinReal(candle.low, price), close := price,
                                volume := candle.volume + volume));
      } else if minute > current.value.minute {
        completed := completed + [current.value];
        if |completed| > maxCandles {
          completed := completed[|completed| - maxCandles..];
        }
        current := Some(C.Candle(minute, e.time, price, price, price, price, volume));
      } else {
        return;
      }
      Keep(e, receivedAt);
    }
  }

  class IntradayScalpingTracker {
    const maxCandles: nat
    var states: map<string, IntradayStockState>

    constructor (maxCandles: nat)
      ensures Valid() && Views() == map[] && this.maxCandles == maxCandles
    {
      this.maxCandles := maxCandles;
      states := map[];
    }

    ghost predicate Valid()
      reads this, states.Values
    {
      && (forall code :: code in states ==> states[code].Valid())
      && (forall c, d :: c in states && d in states && c != d ==> states[c] != states[d])
    }

    ghost function Views(): map<string, C.StockState>
      reads this, states.Values
      requires Valid()
    {
      map code | code in states :: states[code].View()
    }

    /** Changing the state of one stock changes its view and no other. */
    twostate lemma OneStateChanged(code: string, new state: IntradayStockState)
      requires old(Valid()) && state.Valid()
      requires states == old(states)[code := state]
      requires forall c :: c in old(states) && c != code ==> old(states)[c] != state && unchanged(old(states)[c])
      ensures Valid() && Views() == old(Views())[code := state.View()]
    {
    }

    method StateFor(code: string) returns (state: IntradayStockState)
      requires Valid()
      ensures state.Valid() && state.View() == StateOf(Views(), code)
      ensures code in states ==> state == states[code]
      ensures code !in states ==> fresh(state)
    {
      if code in states {
        state := states[code];
      } else {
        state := new IntradayStockState();
      }
    }

    method Record(execution: Execution, receivedAt: int)
      requires Valid()
      modifies this, states.Values
      ensures Valid()
      ensures forall code :: code in states ==> states[code] in old(states.Values) || fresh(states[code])
      ensures Views() == RecordExecution(maxCandles, old(Views()), execution, receivedAt)
    {
      if execution.price.None? || execution.price.value <= 0.0 {
        return;
      }
      var stamp := ReadTime(execution.time);
      if stamp.None? {
        return;
      }
      var code := execution.stockCode;
      var state := StateFor(code);
      state.Take(execution, stamp.value.minute, maxCandles, receivedAt);
      states := states[code := state];
      OneStateChanged(code, state);
    }

    method ClearStock(stockCode: string)
      requires Valid()
      modifies this
      ensures Valid() && Views() == old(Views()) - {stockCode}
    {
      states := states - {stockCode};
    }

    method ClearAll()
      requires Valid()
      modifies this
      ensures Valid() && Views() == map[]
    {
      states := map[];
    }

    method GetCompletedCandles(stockCode: string) returns (candles: seq<C.Candle>)
      requires Valid()
      ensures candles == StateOf(Views(), stockCode).completed
    {
      candles := if stockCode in states then states[stockCode].completed else [];
    }
  }
}
