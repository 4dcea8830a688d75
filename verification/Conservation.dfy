/** No share is lost between the two ledgers: a session holds what its orders
    bought minus what they sold, and never offers more than it holds. */
module Conservation {
  import opened Numbers
  import opened OrderLedger
  import opened Position
  import opened Trading
  import opened TradingDesk

  function SignedQty(o: Order): int { if o.side == Buy then o.executedQuantity else -o.executedQuantity }

  function NetOf(sid: int): Order -> int { (o: Order) => if OfSession(o, sid) then SignedQty(o) else 0 }

  /** Counts an order of the session once it has at least one share filled. */
  function FilledOf(sid: int, side: Side): Order -> int {
    (o: Order) => if OfSession(o, sid) && o.side == side && o.executedQuantity > 0 then 1 else 0
  }

  predicate SessionBooked(s: Session, orders: seq<Order>, sid: int) {
    && s.holdingQty == SumBy(orders, NetOf(sid))
    && s.totalBuys == SumBy(orders, FilledOf(sid, Buy))
    && s.totalSells == SumBy(orders, FilledOf(sid, Sell))
  }

  /** The two ledgers agree, and every open sell is covered by the holding. */
  ghost predicate BooksAgree(d: Desk) {
    && Structure(d)
    && (forall sid :: sid in d.sessions ==> SessionBooked(d.sessions[sid], d.orders, sid))
    && (forall i :: 0 <= i < |d.orders| ==> SellCovered(d, d.orders[i]))
  }

  // ----- acts that record no execution -----

  lemma TouchKeepsBooks(d: Desk, sid: int, s: Session)
    requires BooksAgree(d) && sid in d.sessions && Sound(s)
    requires var t := d.sessions[sid];
      s.user == t.user && s.stock == t.stock && s.holdingQty == t.holdingQty
      && s.totalBuys == t.totalBuys && s.totalSells == t.totalSells
    ensures BooksAgree(d.(sessions := d.sessions[sid := s]))
  {
    TouchKeepsStructure(d, sid, s);
    var d' := d.(sessions := d.sessions[sid := s]);
    forall i | 0 <= i < |d'.orders| ensures SellCovered(d', d'.orders[i]) {
      assert SellCovered(d, d.orders[i]);
    }
  }

  lemma AddKeepsBooks(d: Desk, o: Order)
    requires BooksAgree(d) && MayAdd(d, o) && SellCovered(d, o)
    ensures BooksAgree(d.(orders := d.orders + [o]))
  {
    AddKeepsStructure(d, o);
    var d' := d.(orders := d.orders + [o]);
    forall sid | sid in d'.sessions ensures SessionBooked(d'.sessions[sid], d'.orders, sid) {
      SumByAppend(d.orders, o, NetOf(sid));
      SumByAppend(d.orders, o, FilledOf(sid, Buy));
      SumByAppend(d.orders, o, FilledOf(sid, Sell));
      assert SessionBooked(d.sessions[sid], d.orders, sid);
    }
    forall i | 0 <= i < |d'.orders| ensures SellCovered(d', d'.orders[i]) {
      if i < |d.orders| {
        assert SellCovered(d, d.orders[i]);
      }
    }
  }

  lemma PlacingKeepsBooks(cfg: Config, d: Desk, a: Act)
    requires BooksAgree(d) && Placing(a)
    ensures BooksAgree(StepDesk(cfg, d, a))
  {
    var d' := StepDesk(cfg, d, a);
    PlacingAddsOneRow(cfg, d, a);
    PlacingKeepsSessions(cfg, d, a);
    var e := d.(orders := d'.orders);
    if d'.orders != d.orders {
      var o :| d'.orders == d.orders + [o] && MayAdd(d, o) && SellCovered(d, o);
      AddKeepsBooks(d, o);
    } else {
      assert e == d;
    }
    if a.SellBySignal? && a.sid in d.sessions {
      TouchKeepsBooks(e, a.sid, d'.sessions[a.sid]);
      assert d' == e.(sessions := e.sessions[a.sid := d'.sessions[a.sid]]);
    } else {
      assert d' == e;
    }
  }

  // ----- acts that reach a row -----

  /** How far one order event on row `k` moves the sums of a session. */
  lemma RowStepSums(orders: seq<Order>, k: nat, o': Order, sid: int)
    requires k < |orders| && SameTerms(orders[k], o')
    ensures SumBy(orders[k := o'], NetOf(sid)) == SumBy(orders, NetOf(sid)) - NetOf(sid)(orders[k]) + NetOf(sid)(o')
    ensures SumBy(orders[k := o'], FilledOf(sid, Buy))
         == SumBy(orders, FilledOf(sid, Buy)) - FilledOf(sid, Buy)(orders[k]) + FilledOf(sid, Buy)(o')
    ensures SumBy(orders[k := o'], FilledOf(sid, Sell))
         == SumBy(orders, FilledOf(sid, Sell)) - FilledOf(sid, Sell)(orders[k]) + FilledOf(sid, Sell)(o')
  {
    SumByUpdate(orders, k, o', NetOf(sid));
    SumByUpdate(orders, k, o', FilledOf(sid, Buy));
    SumByUpdate(orders, k, o', FilledOf(sid, Sell));
  }

  /** An event that records nothing leaves the books as they are. */
  lemma IdleRowStepKeepsBooks(d: Desk, k: nat, e: Event)
    requires BooksAgree(d) && k < |d.orders| && StepOrder(d.orders[k], e).1 == None
    ensures BooksAgree(d.(orders := d.orders[k := StepOrder(d.orders[k], e).0]))
  {
    var o' := StepOrder(d.orders[k], e).0;
    var d' := d.(orders := d.orders[k := o']);
    RowStepKeepsStructure(d, k, e);
    StepKeepsOrder(d.orders[k], e);
    forall sid | sid in d'.sessions ensures SessionBooked(d'.sessions[sid], d'.orders, sid) {
      RowStepSums(d.orders, k, o', sid);
      assert SessionBooked(d.sessions[sid], d.orders, sid);
    }
    forall i | 0 <= i < |d'.orders| ensures SellCovered(d', d'.orders[i]) {
      assert SellCovered(d, d.orders[i]);
    }
  }

  /** A booked fill moves the holding of its session as its row moves. */
  lemma BookedFillMovesHolding(s: Session, f: Fill)
    requires Sound(s) && Booked(s, f) && (f.side == Sell ==> f.qty <= s.holdingQty)
    ensures var t := ApplyFill(s, f);
      && t.holdingQty == s.holdingQty + (if f.side == Buy then f.qty else -f.qty)
      && t.totalBuys == s.totalBuys + (if f.side == Buy && f.first then 1 else 0)
      && t.totalSells == s.totalSells + (if f.side == Sell && f.first then 1 else 0)
      && t.user == s.user && t.stock == s.stock
  {
  }

  lemma FillKeepsSession(d: Desk, k: nat, e: Event, latest: real, now: int, sid: int)
    requires BooksAgree(d) && k < |d.orders| && StepOrder(d.orders[k], e).1.Some? && sid in d.sessions
    requires d.orders[k].meta.sessionId == sid ==>
      Booked(d.sessions[sid], FillOf(d.orders[k], StepOrder(d.orders[k], e).1.value, latest, now))
    ensures var (o', r) := StepOrder(d.orders[k], e);
      SessionBooked(
        if o'.meta.sessionId == sid then ApplyFill(d.sessions[sid], FillOf(o', r.value, latest, now))
        else d.sessions[sid],
        d.orders[k := o'], sid)
  {
    var o := d.orders[k];
    var (o', r) := StepOrder(o, e);
    StepKeepsOrder(o, e);
    RowStepSums(d.orders, k, o', sid);
    assert SessionBooked(d.sessions[sid], d.orders, sid);
    if o.meta.sessionId == sid {
      assert SellCovered(d, o);
      BookedFillMovesHolding(d.sessions[sid], FillOf(o', r.value, latest, now));
    }
  }

  lemma FillKeepsCover(d: Desk, k: nat, e: Event, latest: real, now: int, i: nat)
    requires BooksAgree(d) && k < |d.orders| && StepOrder(d.orders[k], e).1.Some? && i < |d.orders|
    requires var sid := d.orders[k].meta.sessionId;
      sid in d.sessions ==> Booked(d.sessions[sid], FillOf(d.orders[k], StepOrder(d.orders[k], e).1.value, latest, now))
    ensures var (o', r) := StepOrder(d.orders[k], e);
      var d' := Confirm(d.(orders := d.orders[k := o']), k, r.value, latest, now);
      SellCovered(d', d'.orders[i])
  {
    var o := d.orders[k];
    var (o', r) := StepOrder(o, e);
    StepKeepsOrder(o, e);
    assert SellCovered(d, d.orders[i]) && SellCovered(d, o);
    var sid := o.meta.sessionId;
    if sid in d.sessions {
      BookedFillMovesHolding(d.sessions[sid], FillOf(o', r.value, latest, now));
      if i != k && d.orders[i].meta.sessionId == sid {
        assert RowLinked(d, d.orders[i]) && RowLinked(d, o);
        assert !SessionOpen(d.orders[i]) by {
          assert SessionOpen(o);
        }
      }
    }
  }

  /** A fill that its session books keeps the books. */
  lemma FillKeepsBooks(d: Desk, k: nat, e: Event, latest: real, now: int)
    requires BooksAgree(d) && k < |d.orders| && StepOrder(d.orders[k], e).1.Some?
    requires var sid := d.orders[k].meta.sessionId;
      sid in d.sessions ==> Booked(d.sessions[sid], FillOf(d.orders[k], StepOrder(d.orders[k], e).1.value, latest, now))
    ensures var (o', r) := StepOrder(d.orders[k], e);
      BooksAgree(Confirm(d.(orders := d.orders[k := o']), k, r.value, latest, now))
  {
    var (o', r) := StepOrder(d.orders[k], e);
    var mid := d.(orders := d.orders[k := o']);
    var d' := Confirm(mid, k, r.value, latest, now);
    var sid := o'.meta.sessionId;
    StepKeepsOrder(d.orders[k], e);
    RowStepKeepsStructure(d, k, e);
    if sid in d.sessions {
      var f := FillOf(o', r.value, latest, now);
      StepKeepsSound(d.sessions[sid], Filled(f));
      assert SellCovered(d, d.orders[k]);
      BookedFillMovesHolding(d.sessions[sid], f);
      TouchKeepsStructure(mid, sid, ApplyFill(d.sessions[sid], f));
    }
    forall t | t in d'.sessions ensures SessionBooked(d'.sessions[t], d'.orders, t) {
      FillKeepsSession(d, k, e, latest, now, t);
    }
    forall i | 0 <= i < |d'.orders| ensures SellCovered(d', d'.orders[i]) {
      FillKeepsCover(d, k, e, latest, now, i);
    }
  }

  /** A fill put aside for want of a price breaks the books: the row moved, the
      holding did not. */
  lemma LostFillBreaksBooks(d: Desk, k: nat, e: Event, latest: real, now: int)
    requires BooksAgree(d) && k < |d.orders| && StepOrder(d.orders[k], e).1.Some?
    requires var sid := d.orders[k].meta.sessionId;
      sid in d.sessions && !Booked(d.sessions[sid], FillOf(d.orders[k], StepOrder(d.orders[k], e).1.value, latest, now))
    ensures var (o', r) := StepOrder(d.orders[k], e);
      !BooksAgree(Confirm(d.(orders := d.orders[k := o']), k, r.value, latest, now))
  {
    var o := d.orders[k];
    var (o', r) := StepOrder(o, e);
    var sid := o.meta.sessionId;
    StepKeepsOrder(o, e);
    RowStepSums(d.orders, k, o', sid);
    assert SessionBooked(d.sessions[sid], d.orders, sid);
    assert ApplyFill(d.sessions[sid], FillOf(o', r.value, latest, now)) == d.sessions[sid];
  }

  /** Such an execution: a fill notified without a price, of an order without a
      price, for a session that holds nothing. The row has it, the session has not. */
  lemma UnpricedFillIsLost(d: Desk, k: nat, orderNo: string, qty: int, latest: real, now: int)
    requires BooksAgree(d) && FindOpen(d.orders, orderNo) == Some(k) && qty > 0
    requires var o := d.orders[k];
      o.price == 0.0 && o.meta.sessionId in d.sessions && d.sessions[o.meta.sessionId].holdingQty == 0
    ensures var o, d' := d.orders[k], Execute(d, orderNo, Notified(qty, 0.0, 0.0), latest, now);
      && !BooksAgree(d') && d'.sessions == d.sessions && |d'.orders| == |d.orders|
      && d'.orders[k].executedQuantity == MinInt(o.quantity, o.executedQuantity + qty)
  {
    var e := Notified(qty, 0.0, 0.0);
    StepKeepsOrder(d.orders[k], e);
    LostFillBreaksBooks(d, k, e, latest, now);
  }

  function OneShareByHand(): Act {
    OrderByHand(1, Buy, Market, 1, None, false, Some(1), Taken(Some("1"), true))
  }

  /** The row of that order. */
  function OneShareRow(s: Session): Order {
    NewRow(s.user, s.stock, Buy, Market, 1, 0.0, Meta(1, false, None), Taken(Some("1"), true))
  }

  lemma OneShareIsOrdered(s: Session)
    requires s.life != Stopped
    ensures ManualOrder(1, s, [], Buy, Market, 1, None, false, Some(1), Taken(Some("1"), true))
         == ([OneShareRow(s)], None)
  {
    assert !HasOpenOrder([], s.user, s.stock);
    assert [] + [OneShareRow(s)] == [OneShareRow(s)];
  }

  lemma OneShareByHandIsOneRow(cfg: Config, s: Session)
    requires s.life != Stopped
    ensures StepDesk(cfg, Desk(map[1 := s], []), OneShareByHand()) == Desk(map[1 := s], [OneShareRow(s)])
  {
    OneShareIsOrdered(s);
  }

  lemma OneShareUnpriced(cfg: Config, s: Session)
    requires s.holdingQty == 0 && BooksAgree(Desk(map[1 := s], [OneShareRow(s)]))
    ensures var d' := StepDesk(cfg, Desk(map[1 := s], [OneShareRow(s)]),
                               Notification("1", false, true, 1, 0.0, 0.0, 0.0, 0));
      && !BooksAgree(d') && d'.sessions == map[1 := s]
      && |d'.orders| == 1 && d'.orders[0].executedQuantity == 1
  {
    UnpricedFillIsLost(Desk(map[1 := s], [OneShareRow(s)]), 0, "1", 1, 0.0, 0);
  }

  /** A whole run of that kind: a share bought by hand at the market. */
  lemma UnpricedFillPartsTheLedgers(cfg: Config, s: Session)
    requires Sound(s) && s.holdingQty == 0 && s.totalBuys == 0 && s.totalSells == 0 && s.life != Stopped
    ensures var d := StepDesk(cfg, Desk(map[1 := s], []), OneShareByHand());
      var d' := StepDesk(cfg, d, Notification("1", false, true, 1, 0.0, 0.0, 0.0, 0));
      && BooksAgree(d) && !BooksAgree(d')
      && |d'.orders| == 1 && d'.orders[0].executedQuantity == 1 && d'.sessions == map[1 := s]
  {
    FlatDeskAgrees(map[1 := s]);
    OneShareByHandIsOneRow(cfg, s);
    PlacingKeepsBooks(cfg, Desk(map[1 := s], []), OneShareByHand());
    OneShareUnpriced(cfg, s);
  }

  // ----- runs -----

  /** The event an act sends to the history, if it sends one. */
  function EventOf(a: Act): Option<(string, Event, real, int)> {
    match a
    case Notification(orderNo, rejected, executed, qty, price, orderPrice, latestPrice, now) =>
      if !rejected && executed && qty > 0 then Some((orderNo, Notified(qty, price, orderPrice), latestPrice, now))
      else None
    case Poll(orderNo, report, latestPrice, now) => Some((orderNo, Polled(report), latestPrice, now))
    case _ => None
  }

  /** If the act records an execution of a session order, its price resolves. */
  predicate Priced(d: Desk, a: Act) {
    match EventOf(a)
    case None => true
    case Some((orderNo, e, latest, now)) =>
      match FindOpen(d.orders, orderNo)
      case None => true
      case Some(k) =>
        var (o', r) := StepOrder(d.orders[k], e);
        r.Some? && o'.meta.sessionId in d.sessions ==>
          Booked(d.sessions[o'.meta.sessionId], FillOf(o', r.value, latest, now))
  }

  lemma ExecuteKeepsBooksIff(d: Desk, orderNo: string, e: Event, latest: real, now: int, a: Act)
    requires BooksAgree(d) && EventOf(a) == Some((orderNo, e, latest, now))
    ensures BooksAgree(Execute(d, orderNo, e, latest, now)) <==> Priced(d, a)
  {
    match FindOpen(d.orders, orderNo)
    case None =>
    case Some(k) =>
      StepKeepsOrder(d.orders[k], e);
      var (o', r) := StepOrder(d.orders[k], e);
      if r.None? {
        IdleRowStepKeepsBooks(d, k, e);
      } else if Priced(d, a) {
        FillKeepsBooks(d, k, e, latest, now);
      } else {
        LostFillBreaksBooks(d, k, e, latest, now);
      }
  }

  /** The rejected order is one after which its session was to be paused. */
  predicate EndsPauseOf(d: Desk, orderNo: string, sid: int) {
    var k := FindOpen(d.orders, orderNo);
    k.Some? && d.orders[k.value].meta.pauseAfterSell && d.orders[k.value].meta.sessionId == sid > 0
  }

  /** A rejection keeps the books, fails its row, and lets the session of a sell
      that was to pause it sell again; nothing else changes. */
  lemma RejectKeepsBooks(d: Desk, orderNo: string)
    requires BooksAgree(d)
    ensures var d', k := RejectOrder(d, orderNo), FindOpen(d.orders, orderNo);
      && BooksAgree(d')
      && (k.None? ==> d' == d)
      && (k.Some? ==> d'.orders == d.orders[k.value := d.orders[k.value].(status := Failed)])
      && d'.sessions.Keys == d.sessions.Keys
      && forall sid :: sid in d.sessions ==> d'.sessions[sid] == d.sessions[sid].(
           autoPausePending := d.sessions[sid].autoPausePending && !EndsPauseOf(d, orderNo, sid))
  {
    match FindOpen(d.orders, orderNo)
    case None =>
    case Some(k) =>
      IdleRowStepKeepsBooks(d, k, Rejected);
      var mid := d.(orders := d.orders[k := StepOrder(d.orders[k], Rejected).0]);
      var sid := d.orders[k].meta.sessionId;
      if sid in d.sessions {
        TouchKeepsBooks(mid, sid, d.sessions[sid].(autoPausePending := false));
      }
  }

  /** Exactly when one call keeps the two ledgers in agreement. */
  lemma StepKeepsBooksIff(cfg: Config, d: Desk, a: Act)
    requires BooksAgree(d)
    ensures BooksAgree(StepDesk(cfg, d, a)) <==> Priced(d, a)
  {
    match a
    case Notification(orderNo, rejected, executed, qty, price, orderPrice, latestPrice, now) =>
      if rejected {
        RejectKeepsBooks(d, orderNo);
      } else if executed && qty > 0 {
        ExecuteKeepsBooksIff(d, orderNo, Notified(qty, price, orderPrice), latestPrice, now, a);
      }
    case Poll(orderNo, report, latestPrice, now) =>
      ExecuteKeepsBooksIff(d, orderNo, Polled(report), latestPrice, now, a);
    case PriceEvaluated(sid, price) =>
      if sid in d.sessions {
        StepKeepsSound(d.sessions[sid], Evaluated(price));
        TouchKeepsBooks(d, sid, Step(d.sessions[sid], Evaluated(price)));
      }
    case LifeChanged(sid, life, pending) =>
      if sid in d.sessions {
        TouchKeepsBooks(d, sid, d.sessions[sid].(life := life, autoPausePending := pending));
      }
    case SettingsChanged(sid, strategyId, variant, takeProfitPct, stopLossPct, addOnAllowed) =>
      if sid in d.sessions && d.sessions[sid].life != Stopped {
        TouchKeepsBooks(d, sid, StepDesk(cfg, d, a).sessions[sid]);
      }
    case _ =>
      PlacingKeepsBooks(cfg, d, a);
  }

  predicate AllPriced(cfg: Config, d: Desk, acts: seq<Act>) {
    |acts| == 0 ||
      (AllPriced(cfg, d, acts[..|acts| - 1]) && Priced(RunDesk(cfg, d, acts[..|acts| - 1]), acts[|acts| - 1]))
  }

  ghost predicate BooksAgreeThroughout(cfg: Config, d: Desk, acts: seq<Act>) {
    BooksAgree(RunDesk(cfg, d, acts)) && (|acts| == 0 || BooksAgreeThroughout(cfg, d, acts[..|acts| - 1]))
  }

  /** Over any run of service calls the ledgers agree all along exactly when
      every execution that reaches a session resolves to a price. */
  lemma {:induction false} SharesAreConservedIff(cfg: Config, d: Desk, acts: seq<Act>)
    requires BooksAgree(d)
    ensures BooksAgreeThroughout(cfg, d, acts) <==> AllPriced(cfg, d, acts)
  {
    if |acts| > 0 {
      var init := acts[..|acts| - 1];
      SharesAreConservedIff(cfg, d, init);
      if BooksAgreeThroughout(cfg, d, init) {
        StepKeepsBooksIff(cfg, RunDesk(cfg, d, init), acts[|acts| - 1]);
      }
    }
  }

  /** A desk of flat sessions without orders starts in agreement. */
  lemma FlatDeskAgrees(sessions: map<int, Session>)
    requires 0 !in sessions
    requires forall sid :: sid in sessions ==>
      var s := sessions[sid]; Sound(s) && s.holdingQty == 0 && s.totalBuys == 0 && s.totalSells == 0
    ensures BooksAgree(Desk(sessions, []))
  {
  }
}
