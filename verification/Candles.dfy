/** One-minute candles from a stream of executions: the incremental tracker and
    the plain grouping of ticks by minute that it must agree with. */
module Candles {
  import opened Numbers
  import opened Clock

  /** What else an execution carries: best ask and bid, the volume-weighted
      average price when it is a number, the day's change and the strength. */
  datatype Quote = Quote(ask: real, bid: real, vwap: Option<real>, changeRate: real, strength: real)

  /** An execution with a positive price and a readable time. `regular` says that
      it was made in the regular session while trading was not halted. */
  datatype Tick = Tick(stamp: Stamp, price: real, volume: int, regular: bool, quote: Quote)

  datatype Candle = Candle(minute: nat, time: string, open: real, high: real, low: real, close: real, volume: int)

  datatype StockState = StockState(
    current: Option<Candle>, completed: seq<Candle>,
    latest: Option<Tick>, latestReceivedAt: Option<int>, lastTime: Option<Stamp>)

  const EMPTY := StockState(None, [], None, None, None)
  const DAY_RESET_MINUTES := 120

  // ----- the incremental tracker -----

  function CreateCandle(t: Tick): Candle {
    Candle(t.stamp.minute, t.stamp.text, t.price, t.price, t.price, t.price, AbsInt(t.volume))
  }

  function UpdateCandle(c: Candle, t: Tick): Candle {
    c.(time := t.stamp.text, high := MaxReal(c.high, t.price), low := MinReal(c.low, t.price), close := t.price,
       volume := c.volume + AbsInt(t.volume))
  }

  /** The last `n` elements, or all of them. */
  function LastN<T>(s: seq<T>, n: nat): seq<T> { if |s| <= n then s else s[|s| - n..] }

  predicate InCurrent(s: StockState, t: Tick) { s.current.Some? && t.stamp.minute == s.current.value.minute }

  predicate Rewound(s: StockState, t: Tick) { s.lastTime.Some? && Earlier(t.stamp, s.lastTime.value) }

  /** A tick from before the last one is late, unless it lies so far back that a
      new day must have begun. */
  predicate Late(s: StockState, t: Tick) {
    Rewound(s, t) && (s.current.None? || s.current.value.minute - t.stamp.minute < DAY_RESET_MINUTES)
  }

  function Seen(s: StockState, t: Tick, receivedAt: int): StockState {
    s.(latest := Some(t), latestReceivedAt := Some(receivedAt), lastTime := Some(t.stamp))
  }

  function Record(maxCandles: nat, s: StockState, t: Tick, receivedAt: int): StockState {
    if Late(s, t) then s
    else
      var s := if Rewound(s, t) then s.(current := None, completed := []) else s;
      if !t.regular then Seen(s, t, receivedAt)
      else if s.current.None? then Seen(s.(current := Some(CreateCandle(t))), t, receivedAt)
      else if t.stamp.minute == s.current.value.minute then
        Seen(s.(current := Some(UpdateCandle(s.current.value, t))), t, receivedAt)
      else if t.stamp.minute > s.current.value.minute then
        Seen(s.(completed := LastN(s.completed + [s.current.value], maxCandles), current := Some(CreateCandle(t))),
             t, receivedAt)
      else s
  }

  /** Each tick with the time it was received. */
  function RecordAll(maxCandles: nat, ticks: seq<(Tick, int)>): StockState {
    if |ticks| == 0 then EMPTY
    else
      var last := ticks[|ticks| - 1];
      Record(maxCandles, RecordAll(maxCandles, ticks[..|ticks| - 1]), last.0, last.1)
  }

  // ----- every reachable state -----

  /** What the state shows: the completed candles and the one in progress. */
  function Shown(s: StockState): seq<Candle> {
    s.completed + (if s.current.Some? then [s.current.value] else [])
  }

  ghost predicate RisingCandles(candles: seq<Candle>) {
    forall i, j :: 0 <= i < j < |candles| ==> candles[i].minute < candles[j].minute
  }

  /** Completed minutes strictly increase up to the current one, which is not
      after the last time seen; without a current candle there are none. */
  ghost predicate Ordered(maxCandles: nat, s: StockState) {
    && (s.current.None? ==> s.completed == [])
    && (s.current.Some? ==> s.lastTime.Some? && s.current.value.minute <= s.lastTime.value.minute)
    && RisingCandles(Shown(s))
    && |s.completed| <= maxCandles
  }

  /** What is shown after a regular tick that is not late. */
  function NextShown(shown: seq<Candle>, sameMinute: bool, t: Tick, n: nat): seq<Candle> {
    if sameMinute && |shown| > 0 then shown[|shown| - 1 := UpdateCandle(shown[|shown| - 1], t)]
    else LastN(shown + [CreateCandle(t)], n)
  }

  lemma ShownAfter(maxCandles: nat, s: StockState, t: Tick, receivedAt: int)
    requires Ordered(maxCandles, s) && t.regular && !Rewound(s, t)
    ensures Shown(Record(maxCandles, s, t, receivedAt)) ==
      NextShown(Shown(s), InCurrent(s, t), t, maxCandles + 1)
  {
  }

  /** The first tick of a new day meets a state without candles. */
  lemma NewDayShows(maxCandles: nat, s: StockState, t: Tick, receivedAt: int)
    requires Rewound(s, t) && !Late(s, t)
    ensures var reset := EMPTY.(lastTime := Some(t.stamp));
      Shown(Record(maxCandles, s, t, receivedAt)) == Shown(Record(maxCandles, reset, t, receivedAt))
  {
  }

  /** The branch for ticks of a minute before the current one is never reached:
      such a tick is from before the last one, so it was late or began a new day. */
  lemma LateMinuteIsUnreachable(maxCandles: nat, s: StockState, t: Tick)
    requires Ordered(maxCandles, s) && s.current.Some? && t.stamp.minute < s.current.value.minute
    ensures Rewound(s, t)
    ensures Late(s, t) <==> Record(maxCandles, s, t, 0) == s
  {
  }

  lemma NextShownRises(shown: seq<Candle>, sameMinute: bool, t: Tick, n: nat)
    requires RisingCandles(shown)
    requires !sameMinute && |shown| > 0 ==> shown[|shown| - 1].minute < t.stamp.minute
    ensures RisingCandles(NextShown(shown, sameMinute, t, n))
  {
  }

  lemma RecordKeepsRising(maxCandles: nat, s: StockState, t: Tick, receivedAt: int)
    requires Ordered(maxCandles, s)
    ensures RisingCandles(Shown(Record(maxCandles, s, t, receivedAt)))
  {
    if Late(s, t) {
    } else if Rewound(s, t) {
      NewDayShows(maxCandles, s, t, receivedAt);
    } else if t.regular {
      ShownAfter(maxCandles, s, t, receivedAt);
      NextShownRises(Shown(s), InCurrent(s, t), t, maxCandles + 1);
    }
  }

  lemma RecordKeepsOrdered(maxCandles: nat, s: StockState, t: Tick, receivedAt: int)
    requires Ordered(maxCandles, s)
    ensures Ordered(maxCandles, Record(maxCandles, s, t, receivedAt))
  {
    RecordKeepsRising(maxCandles, s, t, receivedAt);
  }

  lemma {:induction false} AlwaysOrdered(maxCandles: nat, ticks: seq<(Tick, int)>)
    ensures Ordered(maxCandles, RecordAll(maxCandles, ticks))
  {
    if |ticks| > 0 {
      var last := ticks[|ticks| - 1];
      AlwaysOrdered(maxCandles, ticks[..|ticks| - 1]);
      RecordKeepsOrdered(maxCandles, RecordAll(maxCandles, ticks[..|ticks| - 1]), last.0, last.1);
    }
  }

  /** A completed candle is never repainted. It stays as it is, and leaves only at
      the front when there are too many, or all together when a new day begins;
      what joins is the candle that was current. */
  lemma CompletedIsNeverRepainted(maxCandles: nat, s: StockState, t: Tick, receivedAt: int)
    requires Ordered(maxCandles, s)
    ensures var s' := Record(maxCandles, s, t, receivedAt);
      || s'.completed == s.completed
      || (s.current.Some? && t.stamp.minute > s.current.value.minute
          && s'.completed == LastN(s.completed + [s.current.value], maxCandles))
      || (s'.completed == [] && Rewound(s, t)
          && s.current.Some? && s.current.value.minute - t.stamp.minute >= DAY_RESET_MINUTES)
  {
  }

  // ----- plain grouping -----

  /** The ticks that count: regular ones since the last day reset. */
  datatype Log = Log(regular: seq<Tick>, lastTime: Option<Stamp>)

  function LastMinute(ticks: seq<Tick>): nat
    requires |ticks| > 0
  {
    ticks[|ticks| - 1].stamp.minute
  }

  /** Ticks whose minutes never go back. */
  ghost predicate Counted(ticks: seq<Tick>) {
    forall i, j :: 0 <= i < j < |ticks| ==> ticks[i].stamp.minute <= ticks[j].stamp.minute
  }

  function LogTick(l: Log, t: Tick): Log {
    var rewound := l.lastTime.Some? && Earlier(t.stamp, l.lastTime.value);
    var newDay := |l.regular| > 0 && LastMinute(l.regular) - t.stamp.minute >= DAY_RESET_MINUTES;
    if rewound && !newDay then l
    else
      var kept := if rewound then [] else l.regular;
      Log(if t.regular then kept + [t] else kept, Some(t.stamp))
  }

  function LogOf(ticks: seq<(Tick, int)>): Log {
    if |ticks| == 0 then Log([], None) else LogTick(LogOf(ticks[..|ticks| - 1]), ticks[|ticks| - 1].0)
  }

  /** The ticks of one minute, in order. */
  function OfMinute(ticks: seq<Tick>, minute: nat): seq<Tick> {
    if |ticks| == 0 then []
    else
      var t := ticks[|ticks| - 1];
      OfMinute(ticks[..|ticks| - 1], minute) + (if t.stamp.minute == minute then [t] else [])
  }

  /** The minutes that have a tick, in order, each once. */
  function Minutes(ticks: seq<Tick>): seq<nat> {
    if |ticks| == 0 then []
    else
      var before, m := Minutes(ticks[..|ticks| - 1]), LastMinute(ticks);
      if |before| > 0 && before[|before| - 1] == m then before else before + [m]
  }

  function VolumeOf(): Tick -> int { (t: Tick) => AbsInt(t.volume) }

  /** `c` is the candle of a group of ticks: first, highest, lowest and last price,
      time of the last, total volume. */
  ghost predicate Summarizes(c: Candle, minute: nat, ticks: seq<Tick>) {
    && |ticks| > 0
    && (forall i :: 0 <= i < |ticks| ==> c.low <= ticks[i].price <= c.high)
    && (exists i :: 0 <= i < |ticks| && ticks[i].price == c.high)
    && (exists i :: 0 <= i < |ticks| && ticks[i].price == c.low)
    && c.minute == minute
    && c.open == ticks[0].price
    && c.close == ticks[|ticks| - 1].price
    && c.time == ticks[|ticks| - 1].stamp.text
    && c.volume == SumBy(ticks, VolumeOf())
  }

  /** `c` is the candle of one minute of the log. */
  ghost predicate Matches(c: Candle, minute: nat, ticks: seq<Tick>) {
    Summarizes(c, minute, OfMinute(ticks, minute))
  }

  ghost predicate AllMatch(candles: seq<Candle>, minutes: seq<nat>, ticks: seq<Tick>) {
    && |candles| == |minutes|
    && forall i {:trigger Matches(candles[i], minutes[i], ticks)} ::
         0 <= i < |candles| ==> Matches(candles[i], minutes[i], ticks)
  }

  /** The candles are those of the last minutes of the log, at most `n` of them. */
  ghost predicate AreLastGroups(candles: seq<Candle>, ticks: seq<Tick>, n: nat) {
    AllMatch(candles, LastN(Minutes(ticks), n), ticks)
  }

  ghost predicate Rising(minutes: seq<nat>) {
    forall i, j :: 0 <= i < j < |minutes| ==> minutes[i] < minutes[j]
  }

  lemma RisingAppend(minutes: seq<nat>, m: nat)
    requires Rising(minutes) && (|minutes| > 0 ==> minutes[|minutes| - 1] < m)
    ensures Rising(minutes + [m])
  {
  }

  lemma MinutesEnd(ticks: seq<Tick>)
    ensures |ticks| == 0 ==> Minutes(ticks) == []
    ensures |ticks| > 0 ==> |Minutes(ticks)| > 0 && Minutes(ticks)[|Minutes(ticks)| - 1] == LastMinute(ticks)
  {
  }

  lemma {:induction false} MinutesRise(ticks: seq<Tick>)
    requires Counted(ticks)
    ensures Rising(Minutes(ticks))
  {
    if |ticks| > 0 {
      var before := ticks[..|ticks| - 1];
      MinutesRise(before);
      MinutesEnd(before);
      if |before| == 0 || LastMinute(before) != LastMinute(ticks) {
        RisingAppend(Minutes(before), LastMinute(ticks));
      }
    }
  }

  lemma CreateSummarizes(t: Tick)
    ensures Summarizes(CreateCandle(t), t.stamp.minute, [t])
  {
    SumByAppend([], t, VolumeOf());
    assert [] + [t] == [t];
    assert [t][0].price == CreateCandle(t).high;
  }

  lemma UpdateSummarizes(c: Candle, minute: nat, ticks: seq<Tick>, t: Tick)
    requires Summarizes(c, minute, ticks)
    ensures Summarizes(UpdateCandle(c, t), minute, ticks + [t])
  {
    var all := ticks + [t];
    SumByAppend(ticks, t, VolumeOf());
    var h :| 0 <= h < |ticks| && ticks[h].price == c.high;
    var l :| 0 <= l < |ticks| && ticks[l].price == c.low;
    assert all[h] == ticks[h] && all[l] == ticks[l] && all[|ticks|] == t;
  }

  lemma {:induction false} NoTicksOf(ticks: seq<Tick>, minute: nat)
    requires Counted(ticks) && (|ticks| > 0 ==> LastMinute(ticks) < minute)
    ensures OfMinute(ticks, minute) == []
  {
    if |ticks| > 0 {
      NoTicksOf(ticks[..|ticks| - 1], minute);
    }
  }

  lemma OfMinuteAppend(ticks: seq<Tick>, t: Tick, minute: nat)
    ensures OfMinute(ticks + [t], minute) == OfMinute(ticks, minute) + (if t.stamp.minute == minute then [t] else [])
  {
    assert (ticks + [t])[..|ticks|] == ticks;
  }

  lemma MinutesAppend(ticks: seq<Tick>, t: Tick)
    ensures Minutes(ticks + [t]) ==
      if |ticks| > 0 && LastMinute(ticks) == t.stamp.minute then Minutes(ticks) else Minutes(ticks) + [t.stamp.minute]
  {
    assert (ticks + [t])[..|ticks|] == ticks;
    assert LastMinute(ticks + [t]) == t.stamp.minute;
    MinutesEnd(ticks);
  }

  lemma OtherMinuteMatches(c: Candle, minute: nat, ticks: seq<Tick>, t: Tick)
    requires Matches(c, minute, ticks) && t.stamp.minute != minute
    ensures Matches(c, minute, ticks + [t])
  {
    OfMinuteAppend(ticks, t, minute);
    assert OfMinute(ticks, minute) + [] == OfMinute(ticks, minute);
  }

  lemma SameMinuteMatches(c: Candle, ticks: seq<Tick>, t: Tick)
    requires Matches(c, t.stamp.minute, ticks)
    ensures Matches(UpdateCandle(c, t), t.stamp.minute, ticks + [t])
  {
    OfMinuteAppend(ticks, t, t.stamp.minute);
    UpdateSummarizes(c, t.stamp.minute, OfMinute(ticks, t.stamp.minute), t);
  }

  lemma NewMinuteMatches(ticks: seq<Tick>, t: Tick)
    requires Counted(ticks) && (|ticks| > 0 ==> LastMinute(ticks) < t.stamp.minute)
    ensures Matches(CreateCandle(t), t.stamp.minute, ticks + [t])
  {
    NoTicksOf(ticks, t.stamp.minute);
    OfMinuteAppend(ticks, t, t.stamp.minute);
    assert [] + [t] == [t];
    CreateSummarizes(t);
  }

  lemma LastNAppend<T>(s: seq<T>, x: T, n: nat)
    requires n > 0
    ensures LastN(LastN(s, n) + [x], n) == LastN(s + [x], n)
  {
  }

  lemma LastNAllMatch(candles: seq<Candle>, minutes: seq<nat>, ticks: seq<Tick>, n: nat)
    requires AllMatch(candles, minutes, ticks)
    ensures AllMatch(LastN(candles, n), LastN(minutes, n), ticks)
  {
    var c, m := LastN(candles, n), LastN(minutes, n);
    var d := |candles| - |c|;
    forall i | 0 <= i < |c| ensures Matches(c[i], m[i], ticks) {
      assert Matches(candles[d + i], minutes[d + i], ticks);
    }
  }

  ghost predicate AllBelow(minutes: seq<nat>, m: nat) { forall i :: 0 <= i < |minutes| ==> minutes[i] < m }

  ghost predicate EndsIn(minutes: seq<nat>, m: nat) {
    |minutes| > 0 && minutes[|minutes| - 1] == m && forall i :: 0 <= i < |minutes| - 1 ==> minutes[i] < m
  }

  /** A tick of the minute in progress changes its candle and no other. */
  lemma SameMinute(candles: seq<Candle>, minutes: seq<nat>, ticks: seq<Tick>, t: Tick)
    requires AllMatch(candles, minutes, ticks) && EndsIn(minutes, t.stamp.minute)
    ensures AllMatch(candles[|candles| - 1 := UpdateCandle(candles[|candles| - 1], t)], minutes, ticks + [t])
  {
    var k := |candles| - 1;
    var shown := candles[k := UpdateCandle(candles[k], t)];
    SameMinuteMatches(candles[k], ticks, t);
    forall i | 0 <= i < k ensures Matches(shown[i], minutes[i], ticks + [t]) {
      OtherMinuteMatches(candles[i], minutes[i], ticks, t);
    }
  }

  /** A tick of a new minute appends a candle. */
  lemma NewMinute(candles: seq<Candle>, minutes: seq<nat>, ticks: seq<Tick>, t: Tick)
    requires AllMatch(candles, minutes, ticks) && Counted(ticks)
    requires |ticks| > 0 ==> LastMinute(ticks) < t.stamp.minute
    requires AllBelow(minutes, t.stamp.minute)
    ensures AllMatch(candles + [CreateCandle(t)], minutes + [t.stamp.minute], ticks + [t])
  {
    NewMinuteMatches(ticks, t);
    forall i | 0 <= i < |candles| ensures Matches(candles[i], minutes[i], ticks + [t]) {
      OtherMinuteMatches(candles[i], minutes[i], ticks, t);
    }
  }

  ghost predicate Linked(s: StockState, l: Log) {
    && s.lastTime == l.lastTime
    && (s.current.Some? <==> |l.regular| > 0)
    && (s.current.Some? ==> s.current.value.minute == LastMinute(l.regular))
  }

  /** The state and the log tell the same story. */
  ghost predicate Agrees(maxCandles: nat, s: StockState, l: Log) {
    && Ordered(maxCandles, s) && Counted(l.regular) && Linked(s, l)
    && AreLastGroups(Shown(s), l.regular, maxCandles + 1)
  }

  lemma LastNEndsIn(s: seq<nat>, n: nat)
    requires n > 0 && |s| > 0 && Rising(s)
    ensures EndsIn(LastN(s, n), s[|s| - 1])
  {
  }

  lemma LastMinutesEnd(ticks: seq<Tick>, n: nat)
    requires Counted(ticks) && n > 0 && |ticks| > 0
    ensures EndsIn(LastN(Minutes(ticks), n), LastMinute(ticks))
  {
    MinutesEnd(ticks);
    MinutesRise(ticks);
    LastNEndsIn(Minutes(ticks), n);
  }

  lemma GroupsAfterSameMinute(shown: seq<Candle>, ticks: seq<Tick>, t: Tick, n: nat)
    requires Counted(ticks) && n > 0 && AreLastGroups(shown, ticks, n)
    requires |ticks| > 0 && LastMinute(ticks) == t.stamp.minute
    ensures AreLastGroups(NextShown(shown, true, t, n), ticks + [t], n)
  {
    var m := LastN(Minutes(ticks), n);
    MinutesAppend(ticks, t);
    LastMinutesEnd(ticks, n);
    SameMinute(shown, m, ticks, t);
  }

  lemma LastMinutesBelow(ticks: seq<Tick>, n: nat, m: nat)
    requires Counted(ticks) && n > 0 && (|ticks| > 0 ==> LastMinute(ticks) < m)
    ensures AllBelow(LastN(Minutes(ticks), n), m)
  {
    if |ticks| > 0 {
      LastMinutesEnd(ticks, n);
    }
  }

  lemma GroupsAfterNewMinute(shown: seq<Candle>, ticks: seq<Tick>, t: Tick, n: nat)
    requires Counted(ticks) && n > 0 && AreLastGroups(shown, ticks, n)
    requires |ticks| > 0 ==> LastMinute(ticks) < t.stamp.minute
    ensures AreLastGroups(NextShown(shown, false, t, n), ticks + [t], n)
  {
    var m := LastN(Minutes(ticks), n);
    MinutesAppend(ticks, t);
    LastNAppend(Minutes(ticks), t.stamp.minute, n);
    LastMinutesBelow(ticks, n, t.stamp.minute);
    NewMinute(shown, m, ticks, t);
    LastNAllMatch(shown + [CreateCandle(t)], m + [t.stamp.minute], ticks + [t], n);
  }

  lemma GroupsAfterTick(shown: seq<Candle>, ticks: seq<Tick>, t: Tick, n: nat, sameMinute: bool)
    requires Counted(ticks) && n > 0 && AreLastGroups(shown, ticks, n)
    requires sameMinute <==> |ticks| > 0 && LastMinute(ticks) == t.stamp.minute
    requires |ticks| > 0 ==> LastMinute(ticks) <= t.stamp.minute
    ensures AreLastGroups(NextShown(shown, sameMinute, t, n), ticks + [t], n)
  {
    if sameMinute {
      GroupsAfterSameMinute(shown, ticks, t, n);
    } else {
      GroupsAfterNewMinute(shown, ticks, t, n);
    }
  }

  lemma NotBeforeTheLog(maxCandles: nat, s: StockState, l: Log, t: Tick)
    requires Ordered(maxCandles, s) && Linked(s, l) && !Rewound(s, t)
    ensures |l.regular| > 0 ==> LastMinute(l.regular) <= t.stamp.minute
    ensures InCurrent(s, t) <==> |l.regular| > 0 && LastMinute(l.regular) == t.stamp.minute
  {
  }

  lemma NextShownAgrees(maxCandles: nat, s: StockState, l: Log, t: Tick)
    requires Agrees(maxCandles, s, l) && !Rewound(s, t)
    ensures AreLastGroups(NextShown(Shown(s), InCurrent(s, t), t, maxCandles + 1), l.regular + [t], maxCandles + 1)
  {
    NotBeforeTheLog(maxCandles, s, l, t);
    GroupsAfterTick(Shown(s), l.regular, t, maxCandles + 1, InCurrent(s, t));
  }

  lemma RegularTickAgrees(maxCandles: nat, s: StockState, l: Log, t: Tick, receivedAt: int)
    requires Agrees(maxCandles, s, l) && t.regular && !Rewound(s, t)
    ensures AreLastGroups(Shown(Record(maxCandles, s, t, receivedAt)), l.regular + [t], maxCandles + 1)
  {
    NextShownAgrees(maxCandles, s, l, t);
    ShownAfter(maxCandles, s, t, receivedAt);
  }

  lemma FreshStateAgrees(maxCandles: nat, lastTime: Option<Stamp>)
    ensures Agrees(maxCandles, EMPTY.(lastTime := lastTime), Log([], lastTime))
  {
  }

  lemma NewDayAgrees(maxCandles: nat, s: StockState, t: Tick, receivedAt: int)
    requires Rewound(s, t) && !Late(s, t)
    ensures var shown := Shown(Record(maxCandles, s, t, receivedAt));
      AreLastGroups(shown, if t.regular then [t] else [], maxCandles + 1)
  {
    var reset := EMPTY.(lastTime := Some(t.stamp));
    NewDayShows(maxCandles, s, t, receivedAt);
    if t.regular {
      RegularTickAgrees(maxCandles, reset, Log([], Some(t.stamp)), t, receivedAt);
      assert [] + [t] == [t];
    }
  }

  lemma ShownAgrees(maxCandles: nat, s: StockState, l: Log, t: Tick, receivedAt: int)
    requires Agrees(maxCandles, s, l)
    ensures AreLastGroups(Shown(Record(maxCandles, s, t, receivedAt)), LogTick(l, t).regular, maxCandles + 1)
  {
    if Late(s, t) {
    } else if Rewound(s, t) {
      NewDayAgrees(maxCandles, s, t, receivedAt);
    } else if t.regular {
      RegularTickAgrees(maxCandles, s, l, t, receivedAt);
    }
  }

  lemma CountedAppend(ticks: seq<Tick>, t: Tick)
    requires Counted(ticks) && (|ticks| > 0 ==> LastMinute(ticks) <= t.stamp.minute)
    ensures Counted(ticks + [t])
  {
  }

  lemma LogStaysCounted(maxCandles: nat, s: StockState, l: Log, t: Tick)
    requires Agrees(maxCandles, s, l)
    ensures Counted(LogTick(l, t).regular)
  {
    if Rewound(s, t) {
      assert Counted([]) && Counted([t]);
      assert [] + [t] == [t];
    } else {
      CountedAppend(l.regular, t);
    }
  }

  lemma TickKeepsLinked(maxCandles: nat, s: StockState, l: Log, t: Tick, receivedAt: int)
    requires Linked(s, l) && Ordered(maxCandles, s)
    ensures Linked(Record(maxCandles, s, t, receivedAt), LogTick(l, t))
  {
  }

  lemma TickAgrees(maxCandles: nat, s: StockState, l: Log, t: Tick, receivedAt: int)
    requires Agrees(maxCandles, s, l)
    ensures Agrees(maxCandles, Record(maxCandles, s, t, receivedAt), LogTick(l, t))
  {
    RecordKeepsOrdered(maxCandles, s, t, receivedAt);
    LogStaysCounted(maxCandles, s, l, t);
    TickKeepsLinked(maxCandles, s, l, t, receivedAt);
    ShownAgrees(maxCandles, s, l, t, receivedAt);
  }

  /** For every sequence of ticks of a stock: what the tracker shows is the last
      maxCandles + 1 groups of the regular ticks since the last day reset. */
  lemma {:induction false} TrackerAgreesWithGrouping(maxCandles: nat, ticks: seq<(Tick, int)>)
    ensures Agrees(maxCandles, RecordAll(maxCandles, ticks), LogOf(ticks))
  {
    if |ticks| == 0 {
      FreshStateAgrees(maxCandles, None);
    } else {
      var last := ticks[|ticks| - 1];
      TrackerAgreesWithGrouping(maxCandles, ticks[..|ticks| - 1]);
      TickAgrees(maxCandles, RecordAll(maxCandles, ticks[..|ticks| - 1]), LogOf(ticks[..|ticks| - 1]), last.0, last.1);
    }
  }

  /** The last tick that counted, regular or not, with the time it was received: one
      that is not late, or begins a new day. */
  function LastKept(ticks: seq<(Tick, int)>): Option<(Tick, int)> {
    if |ticks| == 0 then None
    else
      var l, t := LogOf(ticks[..|ticks| - 1]), ticks[|ticks| - 1].0;
      var rewound := l.lastTime.Some? && Earlier(t.stamp, l.lastTime.value);
      if rewound && !(|l.regular| > 0 && LastMinute(l.regular) - t.stamp.minute >= 120)
      then LastKept(ticks[..|ticks| - 1])
      else Some(ticks[|ticks| - 1])
  }

  lemma LateIff(s: StockState, l: Log, t: Tick)
    requires Linked(s, l)
    ensures Late(s, t) <==>
      && l.lastTime.Some? && Earlier(t.stamp, l.lastTime.value)
      && !(|l.regular| > 0 && LastMinute(l.regular) - t.stamp.minute >= 120)
  {
  }

  lemma AlwaysLinked(maxCandles: nat, ticks: seq<(Tick, int)>)
    ensures Linked(RecordAll(maxCandles, ticks), LogOf(ticks)) && Ordered(maxCandles, RecordAll(maxCandles, ticks))
  {
    TrackerAgreesWithGrouping(maxCandles, ticks);
  }

  /** For every sequence of ticks: what the decision reads as the latest tick, and how
      old it is, are those of the last one that counted. */
  lemma {:induction false} LatestIsLastKept(maxCandles: nat, ticks: seq<(Tick, int)>)
    ensures var s, kept := RecordAll(maxCandles, ticks), LastKept(ticks);
      && s.latest == (if kept.Some? then Some(kept.value.0) else None)
      && s.latestReceivedAt == (if kept.Some? then Some(kept.value.1) else None)
      && s.lastTime == (if kept.Some? then Some(kept.value.0.stamp) else None)
  {
    if |ticks| > 0 {
      var init := ticks[..|ticks| - 1];
      LatestIsLastKept(maxCandles, init);
      AlwaysLinked(maxCandles, init);
      LateIff(RecordAll(maxCandles, init), LogOf(init), ticks[|ticks| - 1].0);
    }
  }

  /** Exactly when a tick from before the last one begins a new day. Without a
      current candle, as after a day of halted ticks only, it never does. */
  lemma NewDayIff(maxCandles: nat, s: StockState, t: Tick, receivedAt: int)
    requires Ordered(maxCandles, s) && Rewound(s, t)
    ensures Record(maxCandles, s, t, receivedAt) != s <==>
      s.current.Some? && s.current.value.minute - t.stamp.minute >= 120
  {
  }

  /** Such a day: one halted tick at 15:00 and then a tick at 09:00, which is
      ignored however many hours lie between them. */
  lemma EarlyTickAfterHaltIsIgnored(maxCandles: nat, halted: Tick, early: Tick, at: int, later: int)
    requires !halted.regular && halted.stamp == Stamp("150000", 900, 0)
    requires early.regular && early.stamp == Stamp("090000", 540, 0)
    ensures var s := RecordAll(maxCandles, [(halted, at), (early, later)]);
      s == RecordAll(maxCandles, [(halted, at)]) && s.latest == Some(halted) && Shown(s) == []
  {
    var ticks := [(halted, at), (early, later)];
    assert ticks[..1] == [(halted, at)];
    assert ticks[..1][..0] == [];
    assert RecordAll(maxCandles, ticks[..1]) == Record(maxCandles, EMPTY, halted, at);
  }
}
