/** The two rate limiters as the program has them. A request is known by its
    number; the lists of settled requests stand for the promises resolved and
    rejected so far. */
module RateLimiters {
  import opened Numbers
  import T = TokenBucket

  class KisRateLimiterService {
    const maxRps: nat
    const capacity: nat
    var tokens: int
    var queue: seq<nat>
    var destroyed: bool
    var issued: nat
    var granted: seq<nat>
    var rejected: seq<nat>

    constructor (rawRps: Option<real>, rawBurst: Option<real>)
      ensures maxRps == T.MaxRps(rawRps) && capacity == T.Capacity(rawRps, rawBurst)
      ensures View() == T.Full(capacity)
    {
      var rps := T.MaxRps(rawRps);
      var burst := T.Capacity(rawRps, rawBurst);
      maxRps, capacity, tokens := rps, burst, burst;
      queue, destroyed, issued, granted, rejected := [], false, 0, [], [];
    }

    function View(): T.Bucket
      reads this
    {
      T.Bucket(tokens, queue, granted, rejected, issued, destroyed)
    }

    method Acquire() returns (ticket: nat)
      modifies this
      ensures ticket == old(issued) && View() == T.Acquire(old(View()))
    {
      ticket := issued;
      issued := issued + 1;
      if destroyed {
        rejected := rejected + [ticket];
        return;
      }
      if |queue| == 0 && tokens > 0 {
        tokens := tokens - 1;
        granted := granted + [ticket];
        return;
      }
      queue := queue + [ticket];
      DrainQueue();
    }

    method OnModuleDestroy()
      modifies this
      ensures View() == T.Shutdown(old(View()))
    {
      destroyed := true;
      while |queue| > 0
        invariant View() == T.Bucket(old(tokens), queue, old(granted), rejected, old(issued), true)
        invariant rejected + queue == old(rejected + queue)
      {
        var pending := queue[0];
        assert [pending] + queue[1..] == queue;
        queue := queue[1..];
        rejected := rejected + [pending];
      }
      assert rejected + queue == rejected;
    }

    method RefillTokens()
      modifies this
      ensures View() == T.Refill(capacity, maxRps, old(View()))
    {
      if destroyed {
        return;
      }
      tokens := MinInt(capacity, tokens + maxRps);
      DrainQueue();
    }

    method DrainQueue()
      modifies this`tokens, this`queue, this`granted
      ensures View() == T.Drain(old(View()))
    {
      ghost var n := 0;
      while !destroyed && tokens > 0 && |queue| > 0
        invariant n <= |old(queue)| && (n > 0 ==> !destroyed && 0 <= tokens)
        invariant tokens == old(tokens) - n
        invariant queue == old(queue)[n..]
        invariant granted == old(granted) + old(queue)[..n]
      {
        var pending := queue[0];
        queue := queue[1..];
        tokens := tokens - 1;
        granted := granted + [pending];
        n := n + 1;
      }
    }
  }

  // ----- one bucket per group -----

  datatype Group =
    | Auth | Account | Asset | Stock | MarketInfo | MarketData | MarketDataChart | OrderGroup | OrderHistory | OrderInfo

  function GroupRps(g: Group): nat {
    match g
    case Auth => 5
    case Account => 1
    case Asset => 5
    case Stock => 5
    case MarketInfo => 3
    case MarketData => 10
    case MarketDataChart => 5
    case OrderGroup => 3
    case OrderHistory => 5
    case OrderInfo => 3
  }

  datatype Event = AcquiredFor(group: Group) | RefilledAll | ShutDownAll

  /** One event as it reaches the bucket of one group. A request made after the
      shutdown is refused at once and does not reach it. */
  function Seen(g: Group, closed: bool, e: Event): seq<T.Event> {
    match e
    case AcquiredFor(h) => if h == g && !closed then [T.Acquired] else []
    case RefilledAll => [T.Refilled]
    case ShutDownAll => [T.ShutDown]
  }

  function StepGroup(g: Group, b: T.Bucket, e: Event): T.Bucket {
    match e
    case AcquiredFor(h) => if h == g && !b.closed then T.Acquire(b) else b
    case RefilledAll => T.Refill(GroupRps(g), GroupRps(g), b)
    case ShutDownAll => T.Shutdown(b)
  }

  function RunService(g: Group, b: T.Bucket, es: seq<Event>): T.Bucket {
    if |es| == 0 then b else StepGroup(g, RunService(g, b, es[..|es| - 1]), es[|es| - 1])
  }

  function SeenBy(g: Group, b: T.Bucket, es: seq<Event>): seq<T.Event> {
    if |es| == 0 then []
    else
      var init := es[..|es| - 1];
      SeenBy(g, b, init) + Seen(g, RunService(g, b, init).closed, es[|es| - 1])
  }

  function RefillsIn(es: seq<Event>): nat {
    if |es| == 0 then 0 else RefillsIn(es[..|es| - 1]) + (if es[|es| - 1].RefilledAll? then 1 else 0)
  }

  /** Each group is a limiter of its own whose refills fill it up: all that is
      proved of one bucket holds of every group. */
  lemma {:induction false} GroupIsOneBucket(g: Group, b: T.Bucket, es: seq<Event>)
    ensures RunService(g, b, es) == T.Run(GroupRps(g), GroupRps(g), b, SeenBy(g, b, es))
    ensures T.Refills(SeenBy(g, b, es)) == RefillsIn(es)
  {
    if |es| > 0 {
      var init, c := es[..|es| - 1], GroupRps(g);
      var before, seen := SeenBy(g, b, init), Seen(g, RunService(g, b, init).closed, es[|es| - 1]);
      GroupIsOneBucket(g, b, init);
      if seen == [] {
        assert before + seen == before;
      } else {
        assert (before + seen)[..|before|] == before;
      }
    }
  }

  lemma {:induction false} RunServiceConcat(g: Group, b: T.Bucket, es: seq<Event>, fs: seq<Event>)
    ensures RunService(g, b, es + fs) == RunService(g, RunService(g, b, es), fs)
  {
    if |fs| == 0 {
      assert es + fs == es;
    } else {
      assert (es + fs)[..|es + fs| - 1] == es + fs[..|fs| - 1];
      RunServiceConcat(g, b, es, fs[..|fs| - 1]);
    }
  }

  function Fresh(g: Group): T.Bucket { T.Full(GroupRps(g)) }

  lemma ServiceIsSane(g: Group, es: seq<Event>)
    ensures T.Sane(GroupRps(g), RunService(g, Fresh(g), es))
  {
    GroupIsOneBucket(g, Fresh(g), es);
    T.FullIsSane(GroupRps(g));
    T.RunKeepsSane(GroupRps(g), GroupRps(g), Fresh(g), SeenBy(g, Fresh(g), es));
  }

  /** A window of a run with k refills grants a group at most (k + 1) times its
      limit, whatever came before. */
  lemma GroupWindowBound(g: Group, es: seq<Event>, window: seq<Event>)
    ensures |RunService(g, Fresh(g), es + window).granted| - |RunService(g, Fresh(g), es).granted|
            <= (RefillsIn(window) + 1) * GroupRps(g)
  {
    var c, b := GroupRps(g), RunService(g, Fresh(g), es);
    RunServiceConcat(g, Fresh(g), es, window);
    ServiceIsSane(g, es);
    GroupIsOneBucket(g, b, window);
    T.WindowBound(c, c, b, SeenBy(g, b, window));
    T.OneMore(RefillsIn(window), c);
  }

  /** The bucket of a group after its turn of the refill loop, if it had one. */
  function Refilled(g: Group, done: bool, b: T.Bucket): T.Bucket {
    if done then T.Refill(GroupRps(g), GroupRps(g), b) else b
  }

  class TossBucket {
    const capacity: nat
    var tokens: int
    var queue: seq<nat>
    var granted: seq<nat>
    var rejected: seq<nat>
    var issued: nat

    constructor (capacity: nat)
      ensures this.capacity == capacity && View(false) == T.Full(capacity)
    {
      this.capacity, tokens, queue, granted, rejected, issued := capacity, capacity, [], [], [], 0;
    }

    function View(closed: bool): T.Bucket
      reads this
    {
      T.Bucket(tokens, queue, granted, rejected, issued, closed)
    }

    method Drain()
      requires tokens >= 0
      modifies this`tokens, this`queue, this`granted
      ensures View(false) == T.Drain(old(View(false))) && tokens >= 0
    {
      ghost var n := 0;
      while tokens > 0 && |queue| > 0
        invariant n <= |old(queue)| && tokens >= 0
        invariant tokens == old(tokens) - n
        invariant queue == old(queue)[n..]
        invariant granted == old(granted) + old(queue)[..n]
      {
        var pending := queue[0];
        tokens := tokens - 1;
        queue := queue[1..];
        granted := granted + [pending];
        n := n + 1;
      }
    }

    /** The part of `acquire` that works on the bucket. */
    method Take() returns (ticket: nat)
      requires tokens >= 0
      modifies this
      ensures ticket == old(issued) && View(false) == T.Acquire(old(View(false))) && tokens >= 0
    {
      ticket := issued;
      issued := issued + 1;
      if |queue| == 0 && tokens > 0 {
        tokens := tokens - 1;
        granted := granted + [ticket];
        return;
      }
      queue := queue + [ticket];
      Drain();
    }

    /** One turn of the refill loop. */
    method Fill()
      requires tokens >= 0
      modifies this
      ensures View(false) == T.Refill(capacity, capacity, old(View(false))) && tokens >= 0
    {
      tokens := capacity;
      Drain();
    }

    /** One turn of the shutdown loop. */
    method RejectAll()
      modifies this`queue, this`rejected
      ensures View(true) == T.Shutdown(old(View(true)))
    {
      while |queue| > 0
        invariant rejected + queue == old(rejected + queue)
      {
        var pending := queue[0];
        assert [pending] + queue[1..] == queue;
        queue := queue[1..];
        rejected := rejected + [pending];
      }
      assert rejected + queue == rejected;
    }
  }

  class TossRateLimiterService {
    var buckets: map<Group, TossBucket>
    var destroyed: bool

    constructor ()
      ensures Valid() && forall g :: ViewOf(g) == Fresh(g)
    {
      buckets, destroyed := map[], false;
    }

    ghost predicate Valid()
      reads this, buckets.Values
    {
      && (forall g :: g in buckets ==> buckets[g].capacity == GroupRps(g) && buckets[g].tokens >= 0)
      && (forall g, h :: g in buckets && h in buckets && g != h ==> buckets[g] != buckets[h])
    }

    /** The bucket of a group; a group that was never asked for has a full one. */
    ghost function ViewOf(g: Group): T.Bucket
      reads this, buckets.Values
    {
      if g in buckets then buckets[g].View(destroyed) else Fresh(g).(closed := destroyed)
    }

    method GetBucket(g: Group) returns (bucket: TossBucket)
      requires Valid()
      modifies this`buckets
      ensures Valid() && g in buckets && bucket == buckets[g]
      ensures g !in old(buckets) ==> fresh(bucket)
      ensures g in old(buckets) ==> bucket == old(buckets)[g]
      ensures forall h :: h != g ==> (h in buckets <==> h in old(buckets))
      ensures forall h :: h in old(buckets) ==> h in buckets && buckets[h] == old(buckets)[h]
      ensures forall h :: ViewOf(h) == old(ViewOf(h))
    {
      if g in buckets {
        bucket := buckets[g];
      } else {
        bucket := new TossBucket(GroupRps(g));
        buckets := buckets[g := bucket];
      }
    }

    /** Asks for a call; None when the service was shut down. */
    method Acquire(g: Group) returns (ticket: Option<nat>)
      requires Valid()
      modifies this`buckets, buckets.Values
      ensures Valid() && ticket == if destroyed then None else Some(old(ViewOf(g).issued))
      ensures forall h :: h in buckets ==> buckets[h] in old(buckets.Values) || fresh(buckets[h])
      ensures forall h :: ViewOf(h) == StepGroup(h, old(ViewOf(h)), AcquiredFor(g))
    {
      if destroyed {
        return None;
      }
      var bucket := GetBucket(g);
      label Made:
      assert bucket.View(false) == old(ViewOf(g));
      var taken := bucket.Take();
      ticket := Some(taken);
      forall h ensures ViewOf(h) == StepGroup(h, old(ViewOf(h)), AcquiredFor(g)) {
        if h != g {
          assert ViewOf(h) == old@Made(ViewOf(h));
        }
      }
    }

    /** The refill of every bucket made so far. */
    method RefillAll()
      requires Valid()
      modifies buckets.Values
      ensures Valid()
      ensures forall h :: ViewOf(h) == StepGroup(h, old(ViewOf(h)), RefilledAll)
    {
      if destroyed {
        return;
      }
      FillAll();
      forall h ensures ViewOf(h) == StepGroup(h, old(ViewOf(h)), RefilledAll) {
        if h !in buckets {
          T.RefillOfFull(GroupRps(h), ViewOf(h));
        } else {
          assert ViewOf(h) == buckets[h].View(false);
        }
      }
    }

    /** Its loop. */
    method FillAll()
      requires Valid()
      modifies buckets.Values
      ensures Valid()
      ensures forall h :: h in buckets ==> buckets[h].View(false) == Refilled(h, true, old(buckets[h].View(false)))
    {
      var todo := buckets.Keys;
      while todo != {}
        invariant Valid() && todo <= buckets.Keys
        invariant forall h :: h in buckets ==>
          buckets[h].View(false) == Refilled(h, h !in todo, old(buckets[h].View(false)))
      {
        var g :| g in todo;
        todo := todo - {g};
        buckets[g].Fill();
      }
    }

    method OnModuleDestroy()
      requires Valid()
      modifies this`destroyed, buckets.Values
      ensures Valid()
      ensures forall h :: ViewOf(h) == StepGroup(h, old(ViewOf(h)), ShutDownAll)
    {
      destroyed := true;
      var todo := buckets.Keys;
      while todo != {}
        invariant Valid() && todo <= buckets.Keys && destroyed
        invariant forall h :: h in todo ==> unchanged(buckets[h])
        invariant forall h :: h in buckets && h !in todo ==>
          buckets[h].View(true) == T.Shutdown(old(buckets[h].View(true)))
      {
        var g :| g in todo;
        todo := todo - {g};
        buckets[g].RejectAll();
      }
    }
  }
}
