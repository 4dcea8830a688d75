/** The realtime gateway: browser clients share upstream subscriptions through a
    reference count. */
module Gateway {
  import opened Numbers

  /** What the gateway asks of the broker's socket. */
  datatype Call = SubscribeUp(trId: string, code: string) | UnsubscribeUp(trId: string, code: string)

  /** Subscriptions of a client are kept in the order they were made, each once. */
  datatype Gate = Gate(clients: map<int, seq<string>>, refCount: map<string, nat>, upstream: seq<Call>)

  function ResolveTrId(kind: string, production: bool): Option<string> {
    if kind == "execution" then Some("H0STCNT0")
    else if kind == "orderbook" then Some("H0UNASP0")
    else if kind == "notification" then Some(if production then "H0STCNI0" else "H0STCNI9")
    else None
  }

  function KeyOf(trId: string, code: string): string { trId + ":" + code }

  /** The text before the first colon, and what follows it. */
  function UpToColon(s: string): string {
    if |s| == 0 || s[0] == ':' then "" else [s[0]] + UpToColon(s[1..])
  }

  function AfterColon(s: string): string {
    if |s| == 0 then "" else if s[0] == ':' then s[1..] else AfterColon(s[1..])
  }

  /** The first two parts of a key split at its colons. */
  function SplitKey(key: string): (string, string) { (UpToColon(key), UpToColon(AfterColon(key))) }

  // ----- the handlers -----

  function Decrement(refCount: map<string, nat>, key: string): (map<string, nat>, seq<Call>) {
    var held: int := if key in refCount then refCount[key] else 1;
    var count := held - 1;
    if count <= 0 then
      var (trId, code) := SplitKey(key);
      (refCount - {key}, [UnsubscribeUp(trId, code)])
    else (refCount[key := count], [])
  }

  function DecrementAll(refCount: map<string, nat>, keys: seq<string>): (map<string, nat>, seq<Call>) {
    if |keys| == 0 then (refCount, [])
    else
      var (r, log) := DecrementAll(refCount, keys[..|keys| - 1]);
      var (r', more) := Decrement(r, keys[|keys| - 1]);
      (r', log + more)
  }

  function Without(keys: seq<string>, key: string): seq<string> {
    if |keys| == 0 then []
    else Without(keys[..|keys| - 1], key) + (if keys[|keys| - 1] == key then [] else [keys[|keys| - 1]])
  }

  function Connect(g: Gate, client: int): Gate { g.(clients := g.clients[client := []]) }

  function Disconnect(g: Gate, client: int): Gate {
    if client !in g.clients then g
    else
      var (r, log) := DecrementAll(g.refCount, g.clients[client]);
      Gate(g.clients - {client}, r, g.upstream + log)
  }

  function Subscribe(g: Gate, production: bool, client: int, kind: string, code: string): Gate {
    var trId := ResolveTrId(kind, production);
    if trId.None? || client !in g.clients || KeyOf(trId.value, code) in g.clients[client] then g
    else
      var key := KeyOf(trId.value, code);
      var prev := if key in g.refCount then g.refCount[key] else 0;
      Gate(g.clients[client := g.clients[client] + [key]], g.refCount[key := prev + 1],
           g.upstream + (if prev == 0 then [SubscribeUp(trId.value, code)] else []))
  }

  function Unsubscribe(g: Gate, production: bool, client: int, kind: string, code: string): Gate {
    var trId := ResolveTrId(kind, production);
    if trId.None? || client !in g.clients || KeyOf(trId.value, code) !in g.clients[client] then g
    else
      var key := KeyOf(trId.value, code);
      var (r, log) := Decrement(g.refCount, key);
      Gate(g.clients[client := Without(g.clients[client], key)], r, g.upstream + log)
  }

  /** The gateway as the program has it. */
  class KisWebSocketGateway {
    const production: bool
    var clients: map<int, seq<string>>
    var refCount: map<string, nat>
    var upstream: seq<Call>

    constructor (production: bool)
      ensures this.production == production && View() == Gate(map[], map[], [])
    {
      this.production := production;
      clients, refCount, upstream := map[], map[], [];
    }

    function View(): Gate
      reads this
    {
      Gate(clients, refCount, upstream)
    }

    method HandleConnection(client: int)
      modifies this`clients
      ensures View() == Connect(old(View()), client)
    {
      clients := clients[client := []];
    }

    method HandleDisconnect(client: int)
      modifies this
      ensures View() == Disconnect(old(View()), client)
    {
      if client in clients {
        var keys := clients[client];
        for i := 0 to |keys|
          invariant clients == old(clients)
          invariant refCount == DecrementAll(old(refCount), keys[..i]).0
          invariant upstream == old(upstream) + DecrementAll(old(refCount), keys[..i]).1
        {
          assert keys[..i + 1][..i] == keys[..i];
          DecrementRef(keys[i]);
        }
        assert keys[..|keys|] == keys;
      }
      clients := clients - {client};
    }

    method HandleSubscribe(client: int, kind: string, stockCode: string)
      modifies this
      ensures View() == Subscribe(old(View()), production, client, kind, stockCode)
    {
      var trId := ResolveTrId(kind, production);
      if trId.None? {
        return;
      }
      var key := KeyOf(trId.value, stockCode);
      if client !in clients || key in clients[client] {
        return;
      }
      clients := clients[client := clients[client] + [key]];
      var prev := if key in refCount then refCount[key] else 0;
      refCount := refCount[key := prev + 1];
      if prev == 0 {
        upstream := upstream + [SubscribeUp(trId.value, stockCode)];
      }
    }

    method HandleUnsubscribe(client: int, kind: string, stockCode: string)
      modifies this
      ensures View() == Unsubscribe(old(View()), production, client, kind, stockCode)
    {
      var trId := ResolveTrId(kind, production);
      if trId.None? {
        return;
      }
      var key := KeyOf(trId.value, stockCode);
      if client !in clients || key !in clients[client] {
        return;
      }
      clients := clients[client := Without(clients[client], key)];
      DecrementRef(key);
    }

    method DecrementRef(key: string)
      modifies this`refCount, this`upstream
      ensures refCount == Decrement(old(refCount), key).0
      ensures upstream == old(upstream) + Decrement(old(refCount), key).1
    {
      var held: int := if key in refCount then refCount[key] else 1;
      var count := held - 1;
      if count <= 0 {
        refCount := refCount - {key};
        var parts := SplitKey(key);
        upstream := upstream + [UnsubscribeUp(parts.0, parts.1)];
      } else {
        refCount := refCount[key := count];
      }
    }
  }

  // ----- counts and clients -----

  function RefOf(refCount: map<string, nat>, key: string): nat { if key in refCount then refCount[key] else 0 }

  function Holders(clients: map<int, seq<string>>, key: string): set<int> {
    set c | c in clients && key in clients[c]
  }

  predicate Distinct(keys: seq<string>) { forall i, j :: 0 <= i < j < |keys| ==> keys[i] != keys[j] }

  /** A key is counted once for each client that holds it, and as often as `stray`
      says besides; a key that is not counted is absent. */
  ghost predicate Counted(g: Gate, stray: map<string, nat>) {
    && (forall key :: RefOf(g.refCount, key) == |Holders(g.clients, key)| + RefOf(stray, key))
    && (forall key :: key in g.refCount ==> g.refCount[key] > 0)
    && (forall c :: c in g.clients ==> Distinct(g.clients[c]))
  }

  /** Each count is the number of clients that hold the key. */
  ghost predicate Agrees(g: Gate) { Counted(g, map[]) }

  lemma HolderAdded(clients: map<int, seq<string>>, client: int, keys: seq<string>, key: string)
    requires client in clients
    ensures var before, after := Holders(clients, key), Holders(clients[client := keys], key);
      after == if key in keys then before + {client} else before - {client}
  {
  }

  lemma HolderRemoved(clients: map<int, seq<string>>, client: int, key: string)
    ensures Holders(clients - {client}, key) == Holders(clients, key) - {client}
  {
  }

  lemma {:induction false} WithoutIs(keys: seq<string>, key: string)
    requires Distinct(keys)
    ensures Distinct(Without(keys, key))
    ensures forall k :: k in Without(keys, key) <==> k in keys && k != key
  {
    if |keys| > 0 {
      var init := keys[..|keys| - 1];
      WithoutIs(init, key);
      assert keys == init + [keys[|keys| - 1]];
      assert keys[|keys| - 1] !in init;
      assert keys[|keys| - 1] !in Without(init, key);
    }
  }

  lemma DecrementRefs(refCount: map<string, nat>, key: string)
    requires RefOf(refCount, key) > 0 && forall k :: k in refCount ==> refCount[k] > 0
    ensures var r := Decrement(refCount, key).0;
      && (forall k :: k in r ==> r[k] > 0)
      && (forall k :: RefOf(r, k) == RefOf(refCount, k) - (if k == key then 1 else 0))
  {
  }

  lemma {:induction false} DecrementAllRefs(refCount: map<string, nat>, keys: seq<string>)
    requires Distinct(keys) && forall k :: k in refCount ==> refCount[k] > 0
    requires forall i :: 0 <= i < |keys| ==> RefOf(refCount, keys[i]) > 0
    ensures var r := DecrementAll(refCount, keys).0;
      && (forall k :: k in r ==> r[k] > 0)
      && (forall k :: RefOf(r, k) == RefOf(refCount, k) - (if k in keys then 1 else 0))
  {
    if |keys| > 0 {
      var init, last := keys[..|keys| - 1], keys[|keys| - 1];
      DecrementAllRefs(refCount, init);
      assert last !in init;
      DecrementRefs(DecrementAll(refCount, init).0, last);
      assert forall k :: k in keys <==> k in init || k == last;
    }
  }

  // ----- what each handler keeps -----

  /** One more client holds the key that it adds to its own. */
  lemma HolderGained(clients: map<int, seq<string>>, client: int, key: string, k: string)
    requires client in clients && key !in clients[client]
    ensures |Holders(clients[client := clients[client] + [key]], k)|
         == |Holders(clients, k)| + (if k == key then 1 else 0)
  {
    var before, after := Holders(clients, k), Holders(clients[client := clients[client] + [key]], k);
    if k == key {
      assert after == before + {client} && client !in before;
    } else {
      assert after == before;
    }
  }

  lemma SubscribeCounts(g: Gate, stray: map<string, nat>, production: bool, client: int, kind: string, code: string)
    requires Counted(g, stray)
    ensures Counted(Subscribe(g, production, client, kind, code), stray)
  {
    var g', trId := Subscribe(g, production, client, kind, code), ResolveTrId(kind, production);
    if g' != g {
      var key := KeyOf(trId.value, code);
      assert g'.refCount == g.refCount[key := RefOf(g.refCount, key) + 1];
      forall k ensures RefOf(g'.refCount, k) == |Holders(g'.clients, k)| + RefOf(stray, k) {
        HolderGained(g.clients, client, key, k);
      }
    }
  }

  lemma UnsubscribeCounts(g: Gate, stray: map<string, nat>, production: bool, client: int, kind: string, code: string)
    requires Counted(g, stray)
    ensures Counted(Unsubscribe(g, production, client, kind, code), stray)
  {
    var g', trId := Unsubscribe(g, production, client, kind, code), ResolveTrId(kind, production);
    if trId.Some? && client in g.clients && KeyOf(trId.value, code) in g.clients[client] {
      var key := KeyOf(trId.value, code);
      var keys := Without(g.clients[client], key);
      WithoutIs(g.clients[client], key);
      assert client in Holders(g.clients, key);
      DecrementRefs(g.refCount, key);
      forall k ensures RefOf(g'.refCount, k) == |Holders(g'.clients, k)| + RefOf(stray, k) {
        HolderAdded(g.clients, client, keys, k);
        if k != key {
          assert Holders(g'.clients, k) == Holders(g.clients, k);
        }
      }
    }
  }

  lemma DisconnectCounts(g: Gate, stray: map<string, nat>, client: int)
    requires Counted(g, stray)
    ensures Counted(Disconnect(g, client), stray)
  {
    if client in g.clients {
      var g', keys := Disconnect(g, client), g.clients[client];
      forall i | 0 <= i < |keys| ensures RefOf(g.refCount, keys[i]) > 0 {
        assert client in Holders(g.clients, keys[i]);
      }
      DecrementAllRefs(g.refCount, keys);
      forall k ensures RefOf(g'.refCount, k) == |Holders(g'.clients, k)| + RefOf(stray, k) {
        HolderRemoved(g.clients, client, k);
        assert client in Holders(g.clients, k) <==> k in keys;
      }
    }
  }

  function AddAll(stray: map<string, nat>, keys: seq<string>): map<string, nat> {
    if |keys| == 0 then stray
    else
      var before, last := AddAll(stray, keys[..|keys| - 1]), keys[|keys| - 1];
      before[last := RefOf(before, last) + 1]
  }

  lemma {:induction false} AddAllRefs(stray: map<string, nat>, keys: seq<string>)
    requires Distinct(keys)
    ensures forall k :: RefOf(AddAll(stray, keys), k) == RefOf(stray, k) + (if k in keys then 1 else 0)
  {
    if |keys| > 0 {
      var init, last := keys[..|keys| - 1], keys[|keys| - 1];
      AddAllRefs(stray, init);
      assert last !in init;
      assert forall k :: k in keys <==> k in init || k == last;
    }
  }

  /** What a connection leaves counted for nobody: the keys of the entry it
      replaces. */
  function StrayAfter(g: Gate, stray: map<string, nat>, e: Event): map<string, nat> {
    if e.Connected? && e.client in g.clients then AddAll(stray, g.clients[e.client]) else stray
  }

  lemma ConnectCounts(g: Gate, stray: map<string, nat>, client: int)
    requires Counted(g, stray)
    ensures Counted(Connect(g, client), StrayAfter(g, stray, Connected(client)))
  {
    var g' := Connect(g, client);
    if client in g.clients {
      AddAllRefs(stray, g.clients[client]);
    }
    forall k
      ensures RefOf(g'.refCount, k) == |Holders(g'.clients, k)| + RefOf(StrayAfter(g, stray, Connected(client)), k)
    {
      assert Holders(g'.clients, k) == Holders(g.clients, k) - {client};
      assert client in Holders(g.clients, k) <==> client in g.clients && k in g.clients[client];
    }
  }

  // ----- what is subscribed upstream -----

  /** The keys subscribed after a list of calls. */
  function Replay(log: seq<Call>): set<string> {
    if |log| == 0 then {}
    else
      var before := Replay(log[..|log| - 1]);
      match log[|log| - 1]
      case SubscribeUp(t, c) => before + {KeyOf(t, c)}
      case UnsubscribeUp(t, c) => before - {KeyOf(t, c)}
  }

  /** No call asks for what is already so. */
  predicate NoIdleCall(log: seq<Call>) {
    |log| == 0 ||
    (var before, last := log[..|log| - 1], log[|log| - 1];
     && NoIdleCall(before)
     && (KeyOf(last.trId, last.code) in Replay(before) <==> last.UnsubscribeUp?))
  }

  /** Upstream holds exactly the keys that are counted, and every call marks a
      count that leaves zero or comes back to it. */
  ghost predicate InStep(g: Gate) { NoIdleCall(g.upstream) && Replay(g.upstream) == g.refCount.Keys }

  predicate Plain(key: string) { KeyOf(SplitKey(key).0, SplitKey(key).1) == key }

  lemma {:induction false} UpToColonOf(a: string, b: string)
    requires ':' !in a
    ensures UpToColon(a + ":" + b) == a && AfterColon(a + ":" + b) == b
    decreases |a|
  {
    if |a| == 0 {
      assert a + ":" + b == ":" + b;
    } else {
      assert (a + ":" + b)[1..] == a[1..] + ":" + b;
      UpToColonOf(a[1..], b);
    }
  }

  lemma {:induction false} UpToColonIsWhole(s: string)
    ensures UpToColon(s) == s <==> ':' !in s
  {
    if |s| > 0 {
      assert s == [s[0]] + s[1..];
      UpToColonIsWhole(s[1..]);
      if s[0] != ':' && UpToColon(s[1..]) != s[1..] {
        assert ([s[0]] + UpToColon(s[1..]))[1..] == UpToColon(s[1..]);
      }
    }
  }

  lemma ResolvedHasNoColon(kind: string, production: bool)
    requires ResolveTrId(kind, production).Some?
    ensures ':' !in ResolveTrId(kind, production).value
  {
  }

  /** The key is taken apart as it was put together exactly when the stock code
      has no colon. */
  lemma KeyIsPlainIff(trId: string, code: string)
    requires ':' !in trId
    ensures SplitKey(KeyOf(trId, code)) == (trId, UpToColon(code))
    ensures Plain(KeyOf(trId, code)) <==> ':' !in code
  {
    UpToColonOf(trId, code);
    UpToColonIsWhole(code);
    if UpToColon(code) != code {
      assert KeyOf(trId, UpToColon(code))[|trId| + 1..] == UpToColon(code);
      assert KeyOf(trId, code)[|trId| + 1..] == code;
    }
  }

  lemma ReplayAppend(log: seq<Call>, c: Call)
    ensures Replay(log + [c]) ==
      if c.SubscribeUp? then Replay(log) + {KeyOf(c.trId, c.code)} else Replay(log) - {KeyOf(c.trId, c.code)}
    ensures NoIdleCall(log + [c]) <==>
      NoIdleCall(log) && (KeyOf(c.trId, c.code) in Replay(log) <==> c.UnsubscribeUp?)
  {
    assert (log + [c])[..|log|] == log;
  }

  /** Counting a key down by one keeps upstream in step if the key stays counted or
      is plain. */
  lemma DecrementInStep(clients: map<int, seq<string>>, refCount: map<string, nat>, log: seq<Call>, key: string)
    requires InStep(Gate(clients, refCount, log)) && RefOf(refCount, key) > 0
    requires RefOf(refCount, key) == 1 ==> Plain(key)
    ensures var (r, more) := Decrement(refCount, key); InStep(Gate(clients, r, log + more))
  {
    var (r, more) := Decrement(refCount, key);
    if more == [] {
      assert log + more == log;
      assert r.Keys == refCount.Keys;
    } else {
      ReplayAppend(log, more[0]);
      assert log + more == log + [more[0]];
    }
  }

  lemma {:induction false} DecrementAllInStep(
      clients: map<int, seq<string>>, refCount: map<string, nat>, log: seq<Call>, keys: seq<string>)
    requires InStep(Gate(clients, refCount, log)) && Distinct(keys)
    requires forall k :: k in refCount ==> refCount[k] > 0
    requires forall i :: 0 <= i < |keys| ==> RefOf(refCount, keys[i]) > 0
    requires forall i :: 0 <= i < |keys| && RefOf(refCount, keys[i]) == 1 ==> Plain(keys[i])
    ensures var (r, more) := DecrementAll(refCount, keys); InStep(Gate(clients, r, log + more))
  {
    if |keys| == 0 {
      assert log + [] == log;
    } else {
      var init, last := keys[..|keys| - 1], keys[|keys| - 1];
      DecrementAllInStep(clients, refCount, log, init);
      DecrementAllRefs(refCount, init);
      assert last !in init;
      var (r, more) := DecrementAll(refCount, init);
      DecrementInStep(clients, r, log + more, last);
      assert log + more + Decrement(r, last).1 == log + (more + Decrement(r, last).1);
    }
  }

  /** What is unsubscribed is always a plain key, whatever key was counted down. */
  lemma UnsubscribedIsPlain(key: string)
    ensures Plain(KeyOf(SplitKey(key).0, SplitKey(key).1))
  {
    var (trId, code) := SplitKey(key);
    UpToColonHasNone(key);
    UpToColonHasNone(AfterColon(key));
    KeyIsPlainIff(trId, code);
  }

  lemma {:induction false} UpToColonHasNone(s: string)
    ensures ':' !in UpToColon(s)
  {
    if |s| > 0 {
      UpToColonHasNone(s[1..]);
    }
  }

  /** So a key that is not plain, once subscribed, stays subscribed. */
  lemma {:induction false} OtherKeysStay(refCount: map<string, nat>, log: seq<Call>, keys: seq<string>, key: string)
    requires key in Replay(log) && !Plain(key)
    ensures key in Replay(log + DecrementAll(refCount, keys).1)
  {
    if |keys| == 0 {
      assert log + [] == log;
    } else {
      var init, last := keys[..|keys| - 1], keys[|keys| - 1];
      OtherKeysStay(refCount, log, init, key);
      UnsubscribedIsPlain(last);
      var (r, more) := DecrementAll(refCount, init);
      var next := Decrement(r, last).1;
      assert log + (more + next) == log + more + next;
      if next == [] {
        assert log + more + next == log + more;
      } else {
        ReplayAppend(log + more, next[0]);
      }
    }
  }

  // ----- whole runs -----

  datatype Event =
    | Connected(client: int)
    | Disconnected(client: int)
    | Subscribed(client: int, kind: string, code: string)
    | Unsubscribed(client: int, kind: string, code: string)

  function Step(g: Gate, production: bool, e: Event): Gate {
    match e
    case Connected(c) => Connect(g, c)
    case Disconnected(c) => Disconnect(g, c)
    case Subscribed(c, kind, code) => Subscribe(g, production, c, kind, code)
    case Unsubscribed(c, kind, code) => Unsubscribe(g, production, c, kind, code)
  }

  /** The key that messages of a kind are forwarded under; other kinds have none. */
  function Wanted(production: bool, kind: string, code: string): Option<string> {
    if kind == "execution" then Some("H0STCNT0:" + code)
    else if kind == "orderbook" then Some("H0UNASP0:" + code)
    else if kind == "notification" then Some((if production then "H0STCNI0:" else "H0STCNI9:") + code)
    else None
  }

  lemma WantedIs(production: bool, kind: string, code: string)
    ensures var trId := ResolveTrId(kind, production);
      Wanted(production, kind, code) == if trId.Some? then Some(KeyOf(trId.value, code)) else None
  {
    assert "H0STCNT0" + ":" == "H0STCNT0:" && "H0UNASP0" + ":" == "H0UNASP0:";
    assert "H0STCNI0" + ":" == "H0STCNI0:" && "H0STCNI9" + ":" == "H0STCNI9:";
  }

  function Holds(g: Gate, client: int): set<string> {
    if client in g.clients then set key | key in g.clients[client] else {}
  }

  /** What an event makes of each client: a connection gives it nothing to begin with, a
      disconnect takes it away with all it held, it gains the key it subscribes to and
      loses the one it takes back, and what happens to another does not concern it. */
  lemma HoldersFollow(g: Gate, production: bool, e: Event, client: int)
    requires client in g.clients ==> Distinct(g.clients[client])
    ensures var g', held := Step(g, production, e), Holds(g, client);
      && (client in g'.clients <==> e == Connected(client) || (client in g.clients && e != Disconnected(client)))
      && Holds(g', client) ==
           if e.client != client || client !in g.clients then held
           else match e
             case Connected(_) => {}
             case Disconnected(_) => {}
             case Subscribed(_, kind, code) =>
               var key := Wanted(production, kind, code); if key.Some? then held + {key.value} else held
             case Unsubscribed(_, kind, code) =>
               var key := Wanted(production, kind, code); if key.Some? then held - {key.value} else held
  {
    match e
    case Connected(_) =>
    case Disconnected(_) =>
    case Subscribed(_, kind, code) => WantedIs(production, kind, code);
    case Unsubscribed(_, kind, code) =>
      WantedIs(production, kind, code);
      if client in g.clients && Wanted(production, kind, code).Some? {
        WithoutIs(g.clients[client], Wanted(production, kind, code).value);
      }
  }

  function Run(production: bool, es: seq<Event>): Gate {
    if |es| == 0 then Gate(map[], map[], [])
    else Step(Run(production, es[..|es| - 1]), production, es[|es| - 1])
  }

  /** A socket that connects is not connected already, or holds nothing. */
  predicate NewConnection(g: Gate, e: Event) {
    e.Connected? && e.client in g.clients ==> g.clients[e.client] == []
  }

  ghost predicate Orderly(production: bool, es: seq<Event>) {
    forall n {:trigger Run(production, es[..n])} :: 0 <= n < |es| ==> NewConnection(Run(production, es[..n]), es[n])
  }

  predicate PlainCodes(es: seq<Event>) {
    forall n :: 0 <= n < |es| ==> (es[n].Subscribed? ==> ':' !in es[n].code)
  }

  lemma StepCounts(g: Gate, stray: map<string, nat>, production: bool, e: Event)
    requires Counted(g, stray)
    ensures Counted(Step(g, production, e), StrayAfter(g, stray, e))
  {
    match e
    case Connected(c) => ConnectCounts(g, stray, c);
    case Disconnected(c) => DisconnectCounts(g, stray, c);
    case Subscribed(c, kind, code) => SubscribeCounts(g, stray, production, c, kind, code);
    case Unsubscribed(c, kind, code) => UnsubscribeCounts(g, stray, production, c, kind, code);
  }

  /** How often each key was left counted for nobody so far. */
  function Stray(production: bool, es: seq<Event>): map<string, nat> {
    if |es| == 0 then map[]
    else StrayAfter(Run(production, es[..|es| - 1]), Stray(production, es[..|es| - 1]), es[|es| - 1])
  }

  /** After any run at all, every key is counted once for each client that holds
      it and once for each connection that replaced an entry which held it. */
  lemma {:induction false} EveryCount(production: bool, es: seq<Event>)
    ensures Counted(Run(production, es), Stray(production, es))
  {
    if |es| == 0 {
      assert forall key :: Holders(map[], key) == {};
    } else {
      EveryCount(production, es[..|es| - 1]);
      StepCounts(Run(production, es[..|es| - 1]), Stray(production, es[..|es| - 1]), production, es[|es| - 1]);
    }
  }

  /** What was left counted for nobody stays so for ever. */
  lemma {:induction false} StraysStay(production: bool, es: seq<Event>, n: nat, key: string)
    requires n <= |es|
    ensures RefOf(Stray(production, es[..n]), key) <= RefOf(Stray(production, es), key)
  {
    if n < |es| {
      var init := es[..|es| - 1];
      assert init[..n] == es[..n];
      StraysStay(production, init, n, key);
      EveryCount(production, init);
      var e := es[|es| - 1];
      if e.Connected? && e.client in Run(production, init).clients {
        AddAllRefs(Stray(production, init), Run(production, init).clients[e.client]);
      }
    } else {
      assert es[..n] == es;
    }
  }

  /** One event: the counts still agree exactly when a connection replaced no entry
      that held something. */
  lemma StepAgreesIff(g: Gate, production: bool, e: Event)
    requires Agrees(g)
    ensures Agrees(Step(g, production, e)) <==> NewConnection(g, e)
  {
    StepCounts(g, map[], production, e);
    var g' := Step(g, production, e);
    if !NewConnection(g, e) {
      var key := g.clients[e.client][0];
      AddAllRefs(map[], g.clients[e.client]);
      assert RefOf(g'.refCount, key) == |Holders(g'.clients, key)| + 1;
    }
  }

  /** Counts that disagree never agree again. */
  lemma StillDisagrees(production: bool, es: seq<Event>)
    requires |es| > 0 && !Agrees(Run(production, es[..|es| - 1]))
    ensures !Agrees(Run(production, es))
  {
    var init := es[..|es| - 1];
    EveryCount(production, init);
    EveryCount(production, es);
    var key :| RefOf(Run(production, init).refCount, key) != |Holders(Run(production, init).clients, key)|;
    StraysStay(production, es, |es| - 1, key);
  }

  lemma OrderlyStep(production: bool, es: seq<Event>)
    requires |es| > 0
    ensures var init := es[..|es| - 1];
      Orderly(production, es) <==> Orderly(production, init) && NewConnection(Run(production, init), es[|es| - 1])
  {
    var init := es[..|es| - 1];
    assert forall n :: 0 <= n < |init| ==> es[..n] == init[..n];
    if Orderly(production, es) {
      assert NewConnection(Run(production, es[..|init|]), es[|init|]);
    }
  }

  /** After a run each count is the number of clients that hold the key exactly when
      no connection replaced an entry that held something; a key nobody holds is
      then not in the table. */
  lemma {:induction false} CountsAgreeIff(production: bool, es: seq<Event>)
    ensures Agrees(Run(production, es)) <==> Orderly(production, es)
  {
    if |es| == 0 {
      EveryCount(production, es);
    } else {
      var init := es[..|es| - 1];
      CountsAgreeIff(production, init);
      OrderlyStep(production, es);
      if Orderly(production, init) {
        StepAgreesIff(Run(production, init), production, es[|init|]);
      } else {
        StillDisagrees(production, es);
      }
    }
  }

  lemma IncrementInStep(clients: map<int, seq<string>>, refCount: map<string, nat>, log: seq<Call>,
                        trId: string, code: string)
    requires InStep(Gate(clients, refCount, log)) && forall k :: k in refCount ==> refCount[k] > 0
    ensures var key, prev := KeyOf(trId, code), RefOf(refCount, KeyOf(trId, code));
      InStep(Gate(clients, refCount[key := prev + 1], log + (if prev == 0 then [SubscribeUp(trId, code)] else [])))
  {
    var key, prev := KeyOf(trId, code), RefOf(refCount, KeyOf(trId, code));
    if prev == 0 {
      ReplayAppend(log, SubscribeUp(trId, code));
    } else {
      assert log + [] == log;
    }
  }

  /** The event takes the last reference of the key away. */
  predicate TakesToZero(g: Gate, production: bool, e: Event, key: string) {
    key in g.refCount && key !in Step(g, production, e).refCount
  }

  ghost predicate ZeroedArePlain(g: Gate, production: bool, e: Event) {
    forall key :: TakesToZero(g, production, e, key) ==> Plain(key)
  }

  lemma SubscribeInStep(g: Gate, production: bool, client: int, kind: string, code: string)
    requires InStep(g) && forall k :: k in g.refCount ==> g.refCount[k] > 0
    ensures InStep(Subscribe(g, production, client, kind, code))
    ensures g.refCount.Keys <= Subscribe(g, production, client, kind, code).refCount.Keys
  {
    var trId := ResolveTrId(kind, production);
    if trId.Some? {
      IncrementInStep(g.clients, g.refCount, g.upstream, trId.value, code);
    }
  }

  lemma HeldIsCounted(g: Gate, stray: map<string, nat>, client: int, key: string)
    requires Counted(g, stray) && client in g.clients && key in g.clients[client]
    ensures RefOf(g.refCount, key) > 0
  {
    assert client in Holders(g.clients, key);
  }

  /** One client gives up some of its keys. */
  lemma GivenUpInStepIff(g: Gate, stray: map<string, nat>, client: int, keys: seq<string>,
                         clients: map<int, seq<string>>)
    requires Counted(g, stray) && InStep(g) && client in g.clients && Distinct(keys)
    requires forall i :: 0 <= i < |keys| ==> keys[i] in g.clients[client]
    ensures var (r, more) := DecrementAll(g.refCount, keys);
      InStep(Gate(clients, r, g.upstream + more)) <==> forall key :: key in g.refCount && key !in r ==> Plain(key)
  {
    var (r, more) := DecrementAll(g.refCount, keys);
    forall i | 0 <= i < |keys| ensures RefOf(g.refCount, keys[i]) > 0 {
      HeldIsCounted(g, stray, client, keys[i]);
    }
    DecrementAllRefs(g.refCount, keys);
    if forall key :: key in g.refCount && key !in r ==> Plain(key) {
      forall i | 0 <= i < |keys| && RefOf(g.refCount, keys[i]) == 1 ensures Plain(keys[i]) {
        assert RefOf(r, keys[i]) == 0;
      }
      DecrementAllInStep(g.clients, g.refCount, g.upstream, keys);
    } else {
      var key :| key in g.refCount && key !in r && !Plain(key);
      OtherKeysStay(g.refCount, g.upstream, keys, key);
    }
  }

  lemma DecrementAllOne(refCount: map<string, nat>, key: string)
    ensures DecrementAll(refCount, [key]) == Decrement(refCount, key)
  {
    assert [key][..0] == [];
    assert [] + Decrement(refCount, key).1 == Decrement(refCount, key).1;
  }

  /** One event keeps upstream in step exactly when every key that it takes to zero
      is plain. */
  lemma StepInStepIff(g: Gate, stray: map<string, nat>, production: bool, e: Event)
    requires Counted(g, stray) && InStep(g)
    ensures InStep(Step(g, production, e)) <==> ZeroedArePlain(g, production, e)
  {
    var g' := Step(g, production, e);
    match e
    case Connected(c) =>
    case Disconnected(c) =>
      if c in g.clients {
        GivenUpInStepIff(g, stray, c, g.clients[c], g'.clients);
      }
    case Subscribed(c, kind, code) => SubscribeInStep(g, production, c, kind, code);
    case Unsubscribed(c, kind, code) =>
      var trId := ResolveTrId(kind, production);
      if trId.Some? && c in g.clients && KeyOf(trId.value, code) in g.clients[c] {
        DecrementAllOne(g.refCount, KeyOf(trId.value, code));
        GivenUpInStepIff(g, stray, c, [KeyOf(trId.value, code)], g'.clients);
      }
  }

  ghost predicate AlwaysInStep(production: bool, es: seq<Event>) {
    InStep(Run(production, es)) && (|es| == 0 || AlwaysInStep(production, es[..|es| - 1]))
  }

  ghost predicate ZeroedAlwaysPlain(production: bool, es: seq<Event>) {
    |es| == 0 ||
      (ZeroedAlwaysPlain(production, es[..|es| - 1])
       && ZeroedArePlain(Run(production, es[..|es| - 1]), production, es[|es| - 1]))
  }

  /** Over any run at all: the calls upstream, played back, leave exactly the counted
      keys subscribed and none of them is idle, all along, exactly when every key
      that an event takes to zero is plain. */
  lemma {:induction false} AlwaysInStepIff(production: bool, es: seq<Event>)
    ensures AlwaysInStep(production, es) <==> ZeroedAlwaysPlain(production, es)
  {
    if |es| > 0 {
      var init := es[..|es| - 1];
      AlwaysInStepIff(production, init);
      if AlwaysInStep(production, init) {
        EveryCount(production, init);
        StepInStepIff(Run(production, init), Stray(production, init), production, es[|es| - 1]);
      }
    }
  }

  /** A key is counted only if it was subscribed. */
  lemma {:induction false} CountedArePlain(production: bool, es: seq<Event>, key: string)
    requires PlainCodes(es) && key in Run(production, es).refCount
    ensures Plain(key)
  {
    assert |es| > 0;
    var init, e := es[..|es| - 1], es[|es| - 1];
    var g := Run(production, init);
    if key in g.refCount {
      CountedArePlain(production, init, key);
    } else if e.Subscribed? {
      var trId := ResolveTrId(e.kind, production);
      ResolvedHasNoColon(e.kind, production);
      KeyIsPlainIff(trId.value, e.code);
    } else if e.Disconnected? && e.client in g.clients {
      DecrementAllAddsNone(g.refCount, g.clients[e.client]);
    }
  }

  lemma {:induction false} DecrementAllAddsNone(refCount: map<string, nat>, keys: seq<string>)
    ensures DecrementAll(refCount, keys).0.Keys <= refCount.Keys
  {
    if |keys| > 0 {
      DecrementAllAddsNone(refCount, keys[..|keys| - 1]);
    }
  }

  /** With stock codes that have no colon this is always so: a key is subscribed
      when its count leaves zero and unsubscribed when it returns. */
  lemma {:induction false} UpstreamFollowsTheCounts(production: bool, es: seq<Event>)
    requires PlainCodes(es)
    ensures AlwaysInStep(production, es)
  {
    AlwaysInStepIff(production, es);
    if |es| > 0 {
      var init := es[..|es| - 1];
      UpstreamFollowsTheCounts(production, init);
      AlwaysInStepIff(production, init);
      forall key | TakesToZero(Run(production, init), production, es[|es| - 1], key) ensures Plain(key) {
        CountedArePlain(production, init, key);
      }
    }
  }

  /** A subscription taken back leaves nothing behind upstream exactly when its
      stock code has no colon; otherwise a shorter key is unsubscribed and the
      subscription stays. */
  lemma TakenBackIff(production: bool, client: int, kind: string, code: string)
    requires ResolveTrId(kind, production).Some?
    ensures var g := Connect(Gate(map[], map[], []), client);
      var g' := Unsubscribe(Subscribe(g, production, client, kind, code), production, client, kind, code);
      && g'.refCount == map[]
      && (Replay(g'.upstream) == {} <==> ':' !in code)
  {
    var trId := ResolveTrId(kind, production).value;
    var key := KeyOf(trId, code);
    var g := Connect(Gate(map[], map[], []), client);
    var g1 := Subscribe(g, production, client, kind, code);
    assert g1.upstream == [SubscribeUp(trId, code)] && g1.clients[client] == [key] && g1.refCount == map[key := 1];
    var g2 := Unsubscribe(g1, production, client, kind, code);
    var (t, c) := SplitKey(key);
    assert g2.upstream == g1.upstream + [UnsubscribeUp(t, c)];
    ReplayAppend([], SubscribeUp(trId, code));
    assert [] + [SubscribeUp(trId, code)] == g1.upstream;
    ReplayAppend(g1.upstream, UnsubscribeUp(t, c));
    assert Replay(g2.upstream) == {key} - {KeyOf(t, c)};
    ResolvedHasNoColon(kind, production);
    KeyIsPlainIff(trId, code);
    assert ':' in code ==> key in Replay(g2.upstream);
  }
}
