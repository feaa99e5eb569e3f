/**
 * The bridge worker (bridge-worker.js) as values: its state, every record it
 * writes, and one function per event it reacts to. The class in
 * BridgeWorker is proved to follow these functions; the lemmas here state
 * what the worker promises.
 *
 * JavaScript's Map and Set iterate in insertion order, and the poll loop's
 * output order depends on it, so the registry is a map together with its
 * keys in insertion order, and the clients are a duplicate-free sequence.
 */
module BridgeModel {
  import opened Wrappers
  import opened Text
  import opened Json
  import opened TosSymbol

  /** The identity of one WebSocket connection. */
  type ClientId = nat

  /** Port of the listener when none (or a falsy one) is given. */
  const DefaultPort: int := 8765

  /** One registry entry: the encoded symbol and the fields it was built from. */
  datatype Sub = Sub(symbol: string, expiration: string, strike: string, optionType: string)

  /** A client message after `JSON.parse`, tagged by its `type`. */
  datatype ClientMessage =
    | Subscribe(expiration: string, strike: string, optionType: string)
    | Unsubscribe(expiration: string, strike: string, optionType: string)
    | Ping
    | UnknownType(tag: string)

  /** What arrives on a client connection: a message, or text that failed to parse. */
  datatype Inbound = Parsed(msg: ClientMessage) | Malformed(error: string)

  /** The provider fields a poll reads, in the order it reads them. */
  datatype Field = BID | ASK | LAST | VOLUME | DELTA | GAMMA | THETA | VEGA | IMPL_VOL

  /** One provider lookup, `rtd.Invoke('Quote', symbol, field)`. */
  datatype Query = Query(symbol: string, field: Field)

  /** The `data` of a `quote` message. */
  datatype Sample = Sample(
    symbol: string, expiration: string, strike: string, optionType: string,
    bid: real, ask: real, last: real, volume: int,
    delta: real, gamma: real, theta: real, vega: real, iv: real,
    timestamp: int)

  /** Messages the worker sends to a client. */
  datatype ClientMsg =
    | Greeting(tosConnected: bool)
    | Subscribed(symbol: string, expiration: string, strike: string, optionType: string)
    | Pong
    | QuoteMsg(data: Sample)

  /** Records the worker writes to its parent, one JSON line each. */
  datatype ParentRecord = Log(message: string, logType: string) | Status(fields: map<string, Json>)

  /** Everything the worker emits, in emission order. */
  datatype Output = ToParent(rec: ParentRecord) | ToClient(client: ClientId, msg: ClientMsg)

  /**
   * The worker's module-level state: `rtd !== null`, `wss !== null`, the
   * subscription Map (entries and key order), the client Set, and whether
   * `process.exit` has been called.
   */
  datatype Bridge = Bridge(
    rtd: bool, server: bool,
    subs: map<string, Sub>, order: seq<string>,
    clients: seq<ClientId>,
    exited: bool)

  /**
   * No status record carries a `type` field of its own, so the tag that
   * `sendToParent` puts in front of the fields is the one that survives.
   */
  predicate Untyped(out: seq<Output>) {
    forall o :: o in out && o.ToParent? && o.rec.Status? ==> "type" !in o.rec.fields
  }

  /** The state after an event and what the event emitted. */
  datatype Step = Step(next: Bridge, out: seq<Output>)

  predicate Distinct<T(==)>(s: seq<T>) {
    forall i, j :: 0 <= i < j < |s| ==> s[i] != s[j]
  }

  /** The order lists each registry key once, and no client is listed twice. */
  ghost predicate Valid(b: Bridge) {
    && Distinct(b.order)
    && (forall k :: k in b.order <==> k in b.subs)
    && Distinct(b.clients)
  }

  /** The process at start-up, before its first log line. */
  const Fresh: Bridge := Bridge(false, false, map[], [], [], false)

  /** `s` with every occurrence of `x` taken out. */
  function Without<T(==,!new)>(s: seq<T>, x: T): (r: seq<T>)
    ensures forall y :: y in r <==> y in s && y != x
    ensures Distinct(s) ==> Distinct(r)
    ensures x !in s ==> r == s
  {
    if s == [] then []
    else
      var rest := Without(s[1..], x);
      if s[0] == x then rest
      else
        assert Distinct(s) ==> s[0] !in s[1..];
        [s[0]] + rest
  }

  /**
   * `delete` on a `Set` or a `Map` keeps insertion order: removing a listed
   * element of a duplicate-free sequence leaves the elements before it and
   * the elements after it, each in their order.
   */
  lemma WithoutKeepsOrder<T(!new)>(s: seq<T>, x: T)
    requires Distinct(s) && x in s
    ensures exists i :: 0 <= i < |s| && s[i] == x && Without(s, x) == s[..i] + s[i + 1..]
  {
    var i :| 0 <= i < |s| && s[i] == x;
    assert x !in s[..i] && x !in s[i + 1..];
    WithoutAt(s, i);
  }

  /** Removing an element listed only at `i` splices it out. */
  lemma {:induction false} WithoutAt<T(!new)>(s: seq<T>, i: nat)
    requires i < |s| && s[i] !in s[..i] && s[i] !in s[i + 1..]
    ensures Without(s, s[i]) == s[..i] + s[i + 1..]
    decreases i
  {
    var tail := s[1..];
    if i == 0 {
      assert s[..0] + s[1..] == tail;
    } else {
      assert s[0] in s[..i];
      assert tail[i - 1] == s[i];
      assert tail[..i - 1] == s[1..i] && tail[i..] == s[i + 1..];
      assert forall y :: y in s[1..i] ==> y in s[..i];
      WithoutAt(tail, i - 1);
      ConsSplice(s, i - 1);
    }
  }

  /** Putting the head back in front of a tail with its `i`-th element removed. */
  lemma ConsSplice<T>(s: seq<T>, i: nat)
    requires i < |s| - 1
    ensures [s[0]] + (s[1..][..i] + s[1..][i + 1..]) == s[..i + 1] + s[i + 2..]
  {
    assert s[..i + 1] == [s[0]] + s[1..][..i];
    assert s[i + 2..] == s[1..][i + 1..];
  }

  /** The elements of a sequence, as the set a JavaScript `Set` holds. */
  function SetOf<T>(s: seq<T>): set<T> {
    set x | x in s
  }

  /** A duplicate-free sequence has as many elements as its set. */
  lemma {:induction false} DistinctCard<T>(s: seq<T>)
    requires Distinct(s)
    ensures |SetOf(s)| == |s|
  {
    if s != [] {
      var t := s[..|s| - 1];
      assert Distinct(t);
      DistinctCard(t);
      assert SetOf(s) == SetOf(t) + {s[|s| - 1]};
      assert s[|s| - 1] !in t;
    }
  }

  lemma RemoveCard<K, V>(m: map<K, V>, key: K)
    requires key in m
    ensures |m - {key}| == |m| - 1
  {
    assert (m - {key}).Keys == m.Keys - {key};
  }

  /** Under `Valid`, the key order is exactly as long as the registry is large. */
  lemma OrderCard(b: Bridge)
    requires Valid(b)
    ensures |b.order| == |b.subs|
  {
    DistinctCard(b.order);
    assert SetOf(b.order) == b.subs.Keys;
  }

  // ---------------------------------------------------------------- registry

  /** `subscriptions.set(key, sub)`: a new key goes last, an existing key keeps its place. */
  function Put(b: Bridge, key: string, sub: Sub): (r: Bridge)
    ensures r.subs.Keys == b.subs.Keys + {key} && r.subs[key] == sub
    ensures forall k :: k in b.subs && k != key ==> r.subs[k] == b.subs[k]
    ensures key in b.subs ==> r.order == b.order
    ensures key !in b.subs ==> r.order == b.order + [key]
    ensures r.rtd == b.rtd && r.server == b.server && r.clients == b.clients && r.exited == b.exited
    ensures Valid(b) ==> Valid(r)
  {
    b.(subs := b.subs[key := sub], order := if key in b.subs then b.order else b.order + [key])
  }

  /** `subscriptions.delete(key)`. */
  function Delete(b: Bridge, key: string): (r: Bridge)
    ensures r.subs.Keys == b.subs.Keys - {key}
    ensures forall k :: k in r.subs ==> r.subs[k] == b.subs[k]
    ensures r.order == Without(b.order, key)
    ensures r.rtd == b.rtd && r.server == b.server && r.clients == b.clients && r.exited == b.exited
    ensures Valid(b) ==> Valid(r)
  {
    b.(subs := b.subs - {key}, order := Without(b.order, key))
  }

  function SubscriptionCount(b: Bridge): ParentRecord {
    Status(map["subscriptionCount" := JNum(|b.subs|)])
  }

  function ClientCount(b: Bridge): ParentRecord {
    Status(map["clientCount" := JNum(|b.clients|)])
  }

  /** The records of `out` addressed to clients. */
  function ClientOutputs(out: seq<Output>): (r: seq<Output>)
    ensures forall o :: o in r <==> o in out && o.ToClient?
  {
    if out == [] then []
    else (if out[0].ToClient? then [out[0]] else []) + ClientOutputs(out[1..])
  }

  lemma {:induction false} ClientOutputsAppend(a: seq<Output>, b: seq<Output>)
    ensures ClientOutputs(a + b) == ClientOutputs(a) + ClientOutputs(b)
    decreases |a|
  {
    if a == [] {
      assert a + b == b;
    } else {
      assert (a + b)[0] == a[0];
      assert (a + b)[1..] == a[1..] + b;
      ClientOutputsAppend(a[1..], b);
    }
  }

  /** The client-addressed records of a three-record emission. */
  lemma ClientOutputsOfThree(x: Output, y: Output, z: Output)
    ensures ClientOutputs([x, y, z]) == ClientOutputs([x]) + ClientOutputs([y]) + ClientOutputs([z])
  {
    assert [x, y, z][1..] == [y, z];
    assert [y, z][1..] == [z];
    assert [x][1..] == [] && [y][1..] == [] && [z][1..] == [];
  }

  // ------------------------------------------------------- client messages

  /** `handleClientMessage(ws, msg)`, with the parse step of the `message` handler in front. */
  function HandleClientMessage(b: Bridge, c: ClientId, m: Inbound): (r: Step)
    ensures r.next.rtd == b.rtd && r.next.server == b.server
    ensures r.next.clients == b.clients && r.next.exited == b.exited
    ensures Valid(b) ==> Valid(r.next)
    ensures Untyped(r.out)
  {
    match m
    case Malformed(error) =>
      Step(b, [ToParent(Log("Invalid message from client: " + error, "error"))])
    case Parsed(Subscribe(e, k, t)) =>
      var symbol := BuildTOSSymbol(e, k, t);
      var b' := Put(b, SubscriptionKey(e, k, t), Sub(symbol, e, k, t));
      Step(b', [ToParent(Log("Subscribed to " + symbol, "info")),
                ToParent(SubscriptionCount(b')),
                ToClient(c, Subscribed(symbol, e, k, t))])
    case Parsed(Unsubscribe(e, k, t)) =>
      var key := SubscriptionKey(e, k, t);
      if key in b.subs then
        var b' := Delete(b, key);
        Step(b', [ToParent(Log("Unsubscribed from " + b.subs[key].symbol, "info")),
                  ToParent(SubscriptionCount(b'))])
      else Step(b, [])
    case Parsed(Ping) =>
      Step(b, [ToClient(c, Pong)])
    case Parsed(UnknownType(tag)) =>
      Step(b, [ToParent(Log("Unknown message type: " + tag, "warning"))])
  }

  /**
   * Subscribing stores exactly one entry, under the key
   * `expiration:strike:optionType`, and leaves every other key alone; the
   * registry grows by one exactly when the key is new.
   */
  lemma SubscribeStores(b: Bridge, c: ClientId, e: string, k: string, t: string)
    requires Valid(b)
    ensures var r := HandleClientMessage(b, c, Parsed(Subscribe(e, k, t))).next;
      var key := SubscriptionKey(e, k, t);
      && key in r.subs && r.subs[key] == Sub(BuildTOSSymbol(e, k, t), e, k, t)
      && (forall other :: other != key ==> (other in r.subs <==> other in b.subs))
      && (forall other :: other != key && other in b.subs ==> r.subs[other] == b.subs[other])
      && |r.subs| == (if key in b.subs then |b.subs| else |b.subs| + 1)
  {
  }

  /** Subscribing twice to the same contract is the same as subscribing once. */
  lemma SubscribeIdempotent(b: Bridge, c1: ClientId, c2: ClientId, e: string, k: string, t: string)
    requires Valid(b)
    ensures var once := HandleClientMessage(b, c1, Parsed(Subscribe(e, k, t))).next;
      var twice := HandleClientMessage(once, c2, Parsed(Subscribe(e, k, t))).next;
      twice == once && |twice.subs| == |once.subs|
  {
    var key := SubscriptionKey(e, k, t);
    var sub := Sub(BuildTOSSymbol(e, k, t), e, k, t);
    var once := Put(b, key, sub);
    assert HandleClientMessage(b, c1, Parsed(Subscribe(e, k, t))).next == once;
    assert HandleClientMessage(once, c2, Parsed(Subscribe(e, k, t))).next == Put(once, key, sub);
    assert once.subs[key := sub] == once.subs;
  }

  /**
   * A subscribe sends one reply, a `subscribed` carrying the computed symbol,
   * to the initiating client and nobody else, and reports the new registry
   * size to the parent.
   */
  lemma SubscribeReplies(b: Bridge, c: ClientId, e: string, k: string, t: string)
    ensures var r := HandleClientMessage(b, c, Parsed(Subscribe(e, k, t)));
      && ClientOutputs(r.out) == [ToClient(c, Subscribed(BuildTOSSymbol(e, k, t), e, k, t))]
      && ToParent(Status(map["subscriptionCount" := JNum(|r.next.subs|)])) in r.out
  {
    var r := HandleClientMessage(b, c, Parsed(Subscribe(e, k, t)));
    ClientOutputsOfThree(r.out[0], r.out[1], r.out[2]);
  }

  /** Unsubscribing a key that is not registered changes nothing and emits nothing. */
  lemma UnsubscribeAbsent(b: Bridge, c: ClientId, e: string, k: string, t: string)
    requires SubscriptionKey(e, k, t) !in b.subs
    ensures HandleClientMessage(b, c, Parsed(Unsubscribe(e, k, t))) == Step(b, [])
  {
  }

  /**
   * Unsubscribing a registered key removes exactly that key, keeps the order
   * of the rest, reports the new size, and replies to no client.
   */
  lemma UnsubscribePresent(b: Bridge, c: ClientId, e: string, k: string, t: string)
    requires Valid(b)
    requires SubscriptionKey(e, k, t) in b.subs
    ensures var key := SubscriptionKey(e, k, t);
      var r := HandleClientMessage(b, c, Parsed(Unsubscribe(e, k, t)));
      && r.next.subs == b.subs - {key}
      && (exists i :: 0 <= i < |b.order| && b.order[i] == key && r.next.order == b.order[..i] + b.order[i + 1..])
      && |r.next.subs| == |b.subs| - 1
      && ClientOutputs(r.out) == []
      && ToParent(Status(map["subscriptionCount" := JNum(|b.subs| - 1)])) in r.out
  {
    var key := SubscriptionKey(e, k, t);
    var r := HandleClientMessage(b, c, Parsed(Unsubscribe(e, k, t)));
    RemoveCard(b.subs, key);
    WithoutKeepsOrder(b.order, key);
    ClientOutputsAppend([r.out[0]], [r.out[1]]);
    assert r.out == [r.out[0]] + [r.out[1]];
  }

  /** A ping is answered by one `pong` to the initiator, and nothing changes. */
  lemma PingPongs(b: Bridge, c: ClientId)
    ensures HandleClientMessage(b, c, Parsed(Ping)) == Step(b, [ToClient(c, Pong)])
  {
  }

  /**
   * An unknown type, or text that does not parse, leaves the state as it was
   * and sends nothing to any client; it only writes one log record.
   */
  lemma IgnoredMessages(b: Bridge, c: ClientId, m: Inbound)
    requires m.Malformed? || m.msg.UnknownType?
    ensures var r := HandleClientMessage(b, c, m);
      && r.next == b
      && ClientOutputs(r.out) == []
      && |r.out| == 1 && r.out[0].ToParent? && r.out[0].rec.Log?
  {
  }

  // ----------------------------------------------------------- connections

  /** A `connection` event: the client joins the set, the parent hears the new count, the client a greeting. */
  function OnConnection(b: Bridge, c: ClientId, address: string): (r: Step)
    ensures Valid(b) ==> Valid(r.next)
    ensures Untyped(r.out)
  {
    var b' := b.(clients := if c in b.clients then b.clients else b.clients + [c]);
    Step(b', [ToParent(Log("Client connected from " + address, "success")),
              ToParent(ClientCount(b')),
              ToClient(c, Greeting(b.rtd))])
  }

  /** A client's `close` event. */
  function OnClientClose(b: Bridge, c: ClientId, address: string): (r: Step)
    ensures Valid(b) ==> Valid(r.next)
    ensures Untyped(r.out)
  {
    var b' := b.(clients := Without(b.clients, c));
    Step(b', [ToParent(Log("Client disconnected from " + address, "warning")), ToParent(ClientCount(b'))])
  }

  /** A client's `error` event. */
  function OnClientError(b: Bridge, c: ClientId, message: string): (r: Step)
    ensures Valid(b) ==> Valid(r.next)
    ensures Untyped(r.out)
  {
    var b' := b.(clients := Without(b.clients, c));
    Step(b', [ToParent(Log("Client error: " + message, "error")), ToParent(ClientCount(b'))])
  }

  /** The listener's `error` event: `serverRunning: false` is reported, `wss` itself is kept. */
  function OnServerError(b: Bridge, message: string): (r: Step)
    ensures r.next == b
    ensures forall o :: o in r.out ==> o.ToParent?
    ensures ToParent(Status(map["serverRunning" := JBool(false)])) in r.out
    ensures Untyped(r.out)
  {
    Step(b, [ToParent(Log("Server error: " + message, "error")),
             ToParent(Status(map["serverRunning" := JBool(false)]))])
  }

  /** A new connection joins the client set and is greeted with the provider's connectivity. */
  lemma ConnectionJoins(b: Bridge, c: ClientId, address: string)
    requires Valid(b)
    ensures var r := OnConnection(b, c, address);
      && SetOf(r.next.clients) == SetOf(b.clients) + {c}
      && (c !in b.clients ==> r.next.clients == b.clients + [c])
      && (c in b.clients ==> r.next.clients == b.clients)
      && r.next.subs == b.subs && r.next.order == b.order
      && r.next.rtd == b.rtd && r.next.server == b.server && r.next.exited == b.exited
      && ClientOutputs(r.out) == [ToClient(c, Greeting(b.rtd))]
      && ToParent(Status(map["clientCount" := JNum(|SetOf(r.next.clients)|)])) in r.out
  {
    var r := OnConnection(b, c, address);
    DistinctCard(r.next.clients);
    assert |SetOf(r.next.clients)| == |r.next.clients|;
    ClientOutputsOfThree(r.out[0], r.out[1], r.out[2]);
  }

  /**
   * A client's `close` or `error` removes that client and no other, never
   * touches the subscriptions, and reports the new client count.
   */
  lemma DisconnectRemovesOnlyThatClient(b: Bridge, c: ClientId, text: string, isError: bool)
    requires Valid(b)
    ensures var r := if isError then OnClientError(b, c, text) else OnClientClose(b, c, text);
      && SetOf(r.next.clients) == SetOf(b.clients) - {c}
      && r.next.subs == b.subs && r.next.order == b.order
      && r.next.rtd == b.rtd && r.next.server == b.server
      && ClientOutputs(r.out) == []
      && ToParent(Status(map["clientCount" := JNum(|SetOf(r.next.clients)|)])) in r.out
  {
    var r := if isError then OnClientError(b, c, text) else OnClientClose(b, c, text);
    DistinctCard(r.next.clients);
    assert |SetOf(r.next.clients)| == |r.next.clients|;
    ClientOutputsAppend([r.out[0]], [r.out[1]]);
    assert r.out == [r.out[0]] + [r.out[1]];
  }

  // ------------------------------------------------------------- poll tick

  /** The provider: a number for a (symbol, field), or `None` when it fails or gives no number. */
  type Provider = (string, Field) -> Option<real>

  /** Whether a client's `readyState` is `OPEN` at the moment of sending. */
  type Readiness = ClientId -> bool

  /** `parseFloat(v) || 0`. */
  function OrZero(v: Option<real>): real {
    if v.Some? then v.value else 0.0
  }

  /** `parseInt` of a number: its integer part, rounded toward zero. */
  function Truncate(x: real): (r: int)
    ensures x >= 0.0 ==> r as real <= x < r as real + 1.0
    ensures x < 0.0 ==> r as real - 1.0 < x <= r as real
  {
    if x >= 0.0 then x.Floor else -((-x).Floor)
  }

  /** `parseInt(v) || 0`. */
  function VolumeOf(v: Option<real>): int {
    if v.Some? then Truncate(v.value) else 0
  }

  /** The reading of a non-volume field in a sample. */
  function Reading(q: Sample, f: Field): real
    requires f != VOLUME
  {
    match f
    case BID => q.bid
    case ASK => q.ask
    case LAST => q.last
    case DELTA => q.delta
    case GAMMA => q.gamma
    case THETA => q.theta
    case VEGA => q.vega
    case IMPL_VOL => q.iv
  }

  /**
   * The sample of one subscription: every field is read independently, a
   * failed field reads 0, the rest is copied from the subscription.
   */
  function SampleOf(sub: Sub, quote: Provider, now: int): (q: Sample)
    ensures q.symbol == sub.symbol && q.expiration == sub.expiration
    ensures q.strike == sub.strike && q.optionType == sub.optionType && q.timestamp == now
    ensures forall f :: f != VOLUME && quote(sub.symbol, f).None? ==> Reading(q, f) == 0.0
    ensures forall f :: f != VOLUME && quote(sub.symbol, f).Some? ==> Reading(q, f) == quote(sub.symbol, f).value
    ensures quote(sub.symbol, VOLUME).None? ==> q.volume == 0
    ensures quote(sub.symbol, VOLUME).Some? ==> q.volume == Truncate(quote(sub.symbol, VOLUME).value)
  {
    var s := sub.symbol;
    Sample(s, sub.expiration, sub.strike, sub.optionType,
      OrZero(quote(s, BID)), OrZero(quote(s, ASK)), OrZero(quote(s, LAST)),
      VolumeOf(quote(s, VOLUME)),
      OrZero(quote(s, DELTA)), OrZero(quote(s, GAMMA)), OrZero(quote(s, THETA)),
      OrZero(quote(s, VEGA)), OrZero(quote(s, IMPL_VOL)),
      now)
  }

  /** The nine lookups made for one symbol, in the order the code makes them. */
  function QueriesOf(symbol: string): (qs: seq<Query>)
    ensures |qs| == 9 && Distinct(qs)
    ensures forall q :: q in qs ==> q.symbol == symbol
    ensures forall f :: Query(symbol, f) in qs
  {
    var qs := [Query(symbol, BID), Query(symbol, ASK), Query(symbol, LAST), Query(symbol, VOLUME),
               Query(symbol, DELTA), Query(symbol, GAMMA), Query(symbol, THETA), Query(symbol, VEGA),
               Query(symbol, IMPL_VOL)];
    EveryFieldQueried(symbol, qs);
    qs
  }

  /** Nine lookups, one per field: every field of the provider is read. */
  lemma EveryFieldQueried(symbol: string, qs: seq<Query>)
    requires qs == [Query(symbol, BID), Query(symbol, ASK), Query(symbol, LAST), Query(symbol, VOLUME),
                    Query(symbol, DELTA), Query(symbol, GAMMA), Query(symbol, THETA), Query(symbol, VEGA),
                    Query(symbol, IMPL_VOL)]
    ensures forall f :: Query(symbol, f) in qs
  {
    forall f
      ensures Query(symbol, f) in qs
    {
      match f
      case BID => assert qs[0] == Query(symbol, f);
      case ASK => assert qs[1] == Query(symbol, f);
      case LAST => assert qs[2] == Query(symbol, f);
      case VOLUME => assert qs[3] == Query(symbol, f);
      case DELTA => assert qs[4] == Query(symbol, f);
      case GAMMA => assert qs[5] == Query(symbol, f);
      case THETA => assert qs[6] == Query(symbol, f);
      case VEGA => assert qs[7] == Query(symbol, f);
      case IMPL_VOL => assert qs[8] == Query(symbol, f);
    }
  }

  /** The suppression rule: a sample is sent only if bid, ask or last is positive. */
  predicate Quotable(q: Sample) {
    q.bid > 0.0 || q.ask > 0.0 || q.last > 0.0
  }

  /** One serialized message written to every client that is open, in set order. */
  function Fanout(clients: seq<ClientId>, isOpen: Readiness, msg: ClientMsg): (r: seq<Output>)
    ensures |r| <= |clients|
    ensures forall o :: o in r ==> o.ToClient? && o.msg == msg
    decreases |clients|
  {
    if clients == [] then []
    else
      var c := clients[|clients| - 1];
      Fanout(clients[..|clients| - 1], isOpen, msg) + (if isOpen(c) then [ToClient(c, msg)] else [])
  }

  /** What one subscription contributes to a tick. */
  function PollOne(sub: Sub, clients: seq<ClientId>, quote: Provider, isOpen: Readiness, now: int): (r: seq<Output>)
    ensures |r| <= |clients|
    ensures !Quotable(SampleOf(sub, quote, now)) ==> r == []
    ensures forall o :: o in r ==> o.ToClient? && o.msg == QuoteMsg(SampleOf(sub, quote, now))
  {
    var q := SampleOf(sub, quote, now);
    if Quotable(q) then Fanout(clients, isOpen, QuoteMsg(q)) else []
  }

  /** What the subscriptions under `keys`, in that order, contribute to a tick. */
  function PollKeys(keys: seq<string>, subs: map<string, Sub>, clients: seq<ClientId>,
                    quote: Provider, isOpen: Readiness, now: int): (r: seq<Output>)
    requires forall k :: k in keys ==> k in subs
    ensures forall o :: o in r ==> o.ToClient? && o.msg.QuoteMsg? && Quotable(o.msg.data)
    decreases |keys|
  {
    if keys == [] then []
    else
      var k := keys[|keys| - 1];
      PollKeys(keys[..|keys| - 1], subs, clients, quote, isOpen, now) + PollOne(subs[k], clients, quote, isOpen, now)
  }

  /** The lookups made for the subscriptions under `keys`. */
  function PollQueries(keys: seq<string>, subs: map<string, Sub>): (qs: seq<Query>)
    requires forall k :: k in keys ==> k in subs
    ensures |qs| == 9 * |keys|
    decreases |keys|
  {
    if keys == [] then []
    else PollQueries(keys[..|keys| - 1], subs) + QueriesOf(subs[keys[|keys| - 1]].symbol)
  }

  /**
   * The lookups of a tick are exactly those of the listed subscriptions:
   * every field of every listed symbol is read, and nothing else is.
   */
  lemma {:induction false} PollQueriesCover(keys: seq<string>, subs: map<string, Sub>)
    requires forall k :: k in keys ==> k in subs
    ensures forall k, f :: k in keys ==> Query(subs[k].symbol, f) in PollQueries(keys, subs)
    ensures forall q :: q in PollQueries(keys, subs) ==> exists k :: k in keys && q.symbol == subs[k].symbol
    decreases |keys|
  {
    if keys != [] {
      var init, last := keys[..|keys| - 1], keys[|keys| - 1];
      assert keys == init + [last];
      PollQueriesCover(init, subs);
      var qs := PollQueries(keys, subs);
      assert qs == PollQueries(init, subs) + QueriesOf(subs[last].symbol);
      forall q | q in qs
        ensures exists k :: k in keys && q.symbol == subs[k].symbol
      {
        if q in PollQueries(init, subs) {
          var k :| k in init && q.symbol == subs[k].symbol;
          assert k in keys;
        } else {
          assert q.symbol == subs[last].symbol;
        }
      }
    }
  }

  /** A tick over one more key: that key's lookups and sends come last. */
  lemma PollStep(keys: seq<string>, subs: map<string, Sub>, clients: seq<ClientId>,
                 quote: Provider, isOpen: Readiness, now: int, i: nat)
    requires i < |keys| && forall k :: k in keys ==> k in subs
    ensures forall k :: k in keys[..i] ==> k in subs
    ensures PollQueries(keys[..i + 1], subs) == PollQueries(keys[..i], subs) + QueriesOf(subs[keys[i]].symbol)
    ensures PollKeys(keys[..i + 1], subs, clients, quote, isOpen, now)
         == PollKeys(keys[..i], subs, clients, quote, isOpen, now) + PollOne(subs[keys[i]], clients, quote, isOpen, now)
  {
    assert keys[..i + 1][..i] == keys[..i];
    assert forall k :: k in keys[..i + 1] ==> k in keys;
  }

  /** The guard of `pollAndBroadcast`. */
  predicate ShouldPoll(b: Bridge) {
    b.rtd && |b.subs| > 0 && |b.clients| > 0
  }

  /** The lookups one tick makes and what it sends. */
  datatype Tick = Tick(queries: seq<Query>, out: seq<Output>)

  /**
   * `pollAndBroadcast()`: with no provider, no subscription or no client it
   * makes no lookup and sends nothing; otherwise it makes nine lookups per
   * subscription.
   */
  function PollTick(b: Bridge, quote: Provider, isOpen: Readiness, now: int): (t: Tick)
    requires Valid(b)
    ensures !ShouldPoll(b) ==> t.queries == [] && t.out == []
    ensures ShouldPoll(b) ==> |t.queries| == 9 * |b.subs|
    ensures ShouldPoll(b) ==> forall k, f :: k in b.subs ==> Query(b.subs[k].symbol, f) in t.queries
    ensures forall q :: q in t.queries ==> exists k :: k in b.subs && q.symbol == b.subs[k].symbol
    ensures forall o :: o in t.out ==> o.ToClient? && o.msg.QuoteMsg? && Quotable(o.msg.data)
  {
    if !ShouldPoll(b) then Tick([], [])
    else
      OrderCard(b);
      PollQueriesCover(b.order, b.subs);
      Tick(PollQueries(b.order, b.subs), PollKeys(b.order, b.subs, b.clients, quote, isOpen, now))
  }

  /** Everything a fan-out writes is the one message, to an open client of the set. */
  lemma {:induction false} FanoutSound(clients: seq<ClientId>, isOpen: Readiness, msg: ClientMsg)
    ensures forall o :: o in Fanout(clients, isOpen, msg) ==>
      o.ToClient? && o.msg == msg && o.client in clients && isOpen(o.client)
    decreases |clients|
  {
    if clients != [] {
      FanoutSound(clients[..|clients| - 1], isOpen, msg);
      assert clients == clients[..|clients| - 1] + [clients[|clients| - 1]];
    }
  }

  /** Each open client of a duplicate-free set gets the message exactly once; others never. */
  lemma {:induction false} FanoutOnce(clients: seq<ClientId>, isOpen: Readiness, msg: ClientMsg, c: ClientId)
    requires Distinct(clients)
    ensures multiset(Fanout(clients, isOpen, msg))[ToClient(c, msg)]
         == if c in clients && isOpen(c) then 1 else 0
    decreases |clients|
  {
    if clients != [] {
      var init, last := clients[..|clients| - 1], clients[|clients| - 1];
      assert clients == init + [last];
      assert Distinct(init);
      assert last !in init;
      FanoutOnce(init, isOpen, msg, c);
    }
  }

  /** Everything a tick sends is a quote that passed the suppression rule, from a registered subscription, to an open client. */
  lemma {:induction false} PollKeysSound(keys: seq<string>, subs: map<string, Sub>, clients: seq<ClientId>,
                                         quote: Provider, isOpen: Readiness, now: int)
    requires forall k :: k in keys ==> k in subs
    ensures forall o :: o in PollKeys(keys, subs, clients, quote, isOpen, now) ==>
      && o.ToClient? && o.client in clients && isOpen(o.client)
      && o.msg.QuoteMsg? && Quotable(o.msg.data)
      && (exists k :: k in keys && o.msg.data == SampleOf(subs[k], quote, now))
    decreases |keys|
  {
    if keys != [] {
      var init, k := keys[..|keys| - 1], keys[|keys| - 1];
      assert keys == init + [k];
      PollKeysSound(init, subs, clients, quote, isOpen, now);
      var q := SampleOf(subs[k], quote, now);
      FanoutSound(clients, isOpen, QuoteMsg(q));
      forall o | o in PollOne(subs[k], clients, quote, isOpen, now)
        ensures exists k' :: k' in keys && o.msg.data == SampleOf(subs[k'], quote, now)
      {
        assert o.msg.data == SampleOf(subs[k], quote, now);
      }
    }
  }

  /** Every quotable sample of a listed subscription reaches every open client. */
  lemma {:induction false} PollKeysComplete(keys: seq<string>, subs: map<string, Sub>, clients: seq<ClientId>,
                                            quote: Provider, isOpen: Readiness, now: int, k: string, c: ClientId)
    requires forall k :: k in keys ==> k in subs
    requires k in keys && c in clients && isOpen(c)
    requires Quotable(SampleOf(subs[k], quote, now))
    ensures ToClient(c, QuoteMsg(SampleOf(subs[k], quote, now))) in PollKeys(keys, subs, clients, quote, isOpen, now)
    decreases |keys|
  {
    var init, last := keys[..|keys| - 1], keys[|keys| - 1];
    assert keys == init + [last];
    if k == last {
      FanoutReaches(clients, isOpen, QuoteMsg(SampleOf(subs[k], quote, now)), c);
    } else {
      PollKeysComplete(init, subs, clients, quote, isOpen, now, k, c);
    }
  }

  lemma {:induction false} FanoutReaches(clients: seq<ClientId>, isOpen: Readiness, msg: ClientMsg, c: ClientId)
    requires c in clients && isOpen(c)
    ensures ToClient(c, msg) in Fanout(clients, isOpen, msg)
    decreases |clients|
  {
    var init, last := clients[..|clients| - 1], clients[|clients| - 1];
    assert clients == init + [last];
    if c != last {
      FanoutReaches(init, isOpen, msg, c);
    }
  }

  /**
   * A tick sends only quotes that pass the suppression rule, each built from a
   * registered subscription and addressed to an open client of the set.
   */
  lemma TickSound(b: Bridge, quote: Provider, isOpen: Readiness, now: int)
    requires Valid(b)
    ensures forall o :: o in PollTick(b, quote, isOpen, now).out ==>
      && o.ToClient? && o.client in b.clients && isOpen(o.client)
      && o.msg.QuoteMsg? && Quotable(o.msg.data)
      && (exists k :: k in b.subs && o.msg.data == SampleOf(b.subs[k], quote, now))
  {
    if ShouldPoll(b) {
      PollKeysSound(b.order, b.subs, b.clients, quote, isOpen, now);
    }
  }

  /**
   * When the tick runs, each registered subscription whose sample passes the
   * suppression rule reaches every open client of the set.
   */
  lemma TickDelivers(b: Bridge, quote: Provider, isOpen: Readiness, now: int, k: string, c: ClientId)
    requires Valid(b) && ShouldPoll(b)
    requires k in b.subs && c in b.clients && isOpen(c)
    requires Quotable(SampleOf(b.subs[k], quote, now))
    ensures ToClient(c, QuoteMsg(SampleOf(b.subs[k], quote, now))) in PollTick(b, quote, isOpen, now).out
  {
    PollKeysComplete(b.order, b.subs, b.clients, quote, isOpen, now, k, c);
  }

  /**
   * One client leaving does not stop the broadcasts to another: the
   * subscriptions survive, and a remaining open client still receives every
   * quotable sample.
   */
  lemma DisconnectKeepsOthersFed(b: Bridge, gone: ClientId, address: string, stays: ClientId,
                                 quote: Provider, isOpen: Readiness, now: int, k: string)
    requires Valid(b) && b.rtd
    requires gone != stays && stays in b.clients && isOpen(stays)
    requires k in b.subs && Quotable(SampleOf(b.subs[k], quote, now))
    ensures var after := OnClientClose(b, gone, address).next;
      && after.subs == b.subs
      && ToClient(stays, QuoteMsg(SampleOf(b.subs[k], quote, now))) in PollTick(after, quote, isOpen, now).out
  {
    var after := OnClientClose(b, gone, address).next;
    assert stays in after.clients;
    TickDelivers(after, quote, isOpen, now, k, stays);
  }

  // ------------------------------------------------------- parent commands

  /** A command line from the parent, after `JSON.parse`, tagged by its `type`. */
  datatype Command =
    | ConnectTos
    | StartServer(port: Option<int>)
    | GetStatus
    | Quit
    | OtherCommand(tag: string)

  /**
   * The outcome of `initializeRTD`: connected, `winax` failed to load, or
   * creating the RTD object threw with the given message.
   */
  datatype RtdOutcome = RtdReady | WinaxMissing | RtdError(message: string)

  /** What the operating system and the provider answer while commands run. */
  datatype Env = Env(rtdOutcome: RtdOutcome, localIP: string)

  /** `JSON.parse(line)` followed by reading `cmd.type`; `None` when either throws. */
  type Parser = string -> Option<Command>

  /**
   * `initializeRTD()`. A failure leaves `rtd` as it was (the assignment never
   * happens), even though it reports `tosConnected: false`.
   */
  function InitializeRtd(b: Bridge, outcome: RtdOutcome): (r: Step)
    ensures r.next == b.(rtd := b.rtd || outcome.RtdReady?)
    ensures forall o :: o in r.out ==> o.ToParent?
    ensures |r.out| >= 2 && r.out[|r.out| - 1].rec.Status?
    ensures var f := r.out[|r.out| - 1].rec.fields;
      "tosConnected" in f && f["tosConnected"] == JBool(outcome.RtdReady?)
    ensures Untyped(r.out)
  {
    match outcome
    case RtdReady =>
      Step(b.(rtd := true), [ToParent(Log("Connected to ThinkOrSwim RTD server", "success")),
                             ToParent(Status(map["tosConnected" := JBool(true)]))])
    case WinaxMissing =>
      Step(b, [ToParent(Log("winax module not found!", "error")),
               ToParent(Log("Please run: npm install -g winax", "error")),
               ToParent(Log("Or run install-deps.bat in the app folder", "warning")),
               ToParent(Status(map["tosConnected" := JBool(false), "needsWinax" := JBool(true)]))])
    case RtdError(message) =>
      var logs :=
        if Contains(message, "Class not registered") || Contains(message, "tos.rtd") then
          [ToParent(Log("ThinkOrSwim RTD server not found", "error")),
           ToParent(Log("Make sure ThinkOrSwim is running and logged in", "warning"))]
        else
          [ToParent(Log("Failed to connect to TOS RTD: " + message, "error"))];
      var out := logs + [ToParent(Status(map["tosConnected" := JBool(false)]))];
      assert out[|out| - 1] == ToParent(Status(map["tosConnected" := JBool(false)]));
      Step(b, out)
  }

  /** `cmd.port || 8765`. */
  function ServerPort(port: Option<int>): (p: int)
    ensures p != 0
    ensures port.Some? && port.value != 0 ==> p == port.value
  {
    if port.Some? && port.value != 0 then port.value else DefaultPort
  }

  /** Node's `listen` accepts ports 0 to 65535 and throws at once on any other number. */
  predicate PortAccepted(port: int) {
    0 <= port <= 65535
  }

  /**
   * `startServer(port)`: the listener is (re)created and the parent told
   * where it listens. When `listen` rejects the port, the exception leaves
   * before any record is written and before `wss` is reassigned; the old
   * listener is closed, but `wss` still holds it.
   */
  function StartListener(b: Bridge, port: int, localIP: string): (r: Step)
    ensures !PortAccepted(port) ==> r == Step(b, [])
    ensures PortAccepted(port) ==> r.next == b.(server := true)
    ensures PortAccepted(port) ==>
      ToParent(Status(map["serverRunning" := JBool(true), "port" := JNum(port), "localIP" := JStr(localIP),
                          "wsUrl" := JStr("ws://" + localIP + ":" + IntToString(port))])) in r.out
    ensures forall o :: o in r.out ==> o.ToParent?
    ensures Untyped(r.out)
  {
    if !PortAccepted(port) then Step(b, [])
    else
      var p := IntToString(port);
      var url := "ws://" + localIP + ":" + p;
      Step(b.(server := true),
        [ToParent(Log("WebSocket server started on port " + p, "success")),
         ToParent(Log("Local URL: ws://localhost:" + p, "info")),
         ToParent(Log("Network URL: " + url, "info")),
         ToParent(Status(map["serverRunning" := JBool(true), "port" := JNum(port),
                             "localIP" := JStr(localIP), "wsUrl" := JStr(url)]))])
  }

  /** The record `get-status` answers with. */
  function StatusReport(b: Bridge): (r: ParentRecord)
    ensures r.Status?
    ensures r.fields.Keys == {"tosConnected", "serverRunning", "clientCount", "subscriptionCount"}
    ensures r.fields["tosConnected"] == JBool(b.rtd) && r.fields["serverRunning"] == JBool(b.server)
    ensures r.fields["clientCount"] == JNum(|b.clients|) && r.fields["subscriptionCount"] == JNum(|b.subs|)
  {
    Status(map["tosConnected" := JBool(b.rtd), "serverRunning" := JBool(b.server),
               "clientCount" := JNum(|b.clients|), "subscriptionCount" := JNum(|b.subs|)])
  }

  /** A command that throws inside the `switch`: `start-server` with a port `listen` rejects. */
  predicate Throws(cmd: Command) {
    cmd.StartServer? && !PortAccepted(ServerPort(cmd.port))
  }

  /** One command of the `switch (cmd.type)`. */
  function ApplyCommand(b: Bridge, cmd: Command, env: Env): (r: Step)
    ensures r.next.subs == b.subs && r.next.order == b.order && r.next.clients == b.clients
    ensures r.next.exited == (b.exited || cmd.Quit?)
    ensures Throws(cmd) ==> r == Step(b, [])
    ensures Untyped(r.out)
  {
    match cmd
    case ConnectTos => InitializeRtd(b, env.rtdOutcome)
    case StartServer(port) => StartListener(b, ServerPort(port), env.localIP)
    case GetStatus => Step(b, [ToParent(StatusReport(b))])
    case Quit => Step(b.(exited := true), [])
    case OtherCommand(_) => Step(b, [])
  }

  /**
   * `get-status` changes nothing and reports the provider and listener flags
   * and the sizes of the client set and of the registry.
   */
  lemma GetStatusReports(b: Bridge, env: Env)
    requires Valid(b)
    ensures ApplyCommand(b, GetStatus, env) == Step(b, [ToParent(Status(map[
      "tosConnected" := JBool(b.rtd), "serverRunning" := JBool(b.server),
      "clientCount" := JNum(|SetOf(b.clients)|),
      "subscriptionCount" := JNum(|b.subs|)]))])
  {
    DistinctCard(b.clients);
    assert |SetOf(b.clients)| == |b.clients|;
  }

  /**
   * `connect-tos` connects on success; on any failure it reports
   * `tosConnected: false` and keeps whatever connection existed before.
   */
  lemma ConnectOutcome(b: Bridge, env: Env)
    ensures var r := ApplyCommand(b, ConnectTos, env);
      && r.next.rtd == (b.rtd || env.rtdOutcome.RtdReady?)
      && r.next.server == b.server
      && ((ToParent(Status(map["tosConnected" := JBool(env.rtdOutcome.RtdReady?)])) in r.out)
          <==> !env.rtdOutcome.WinaxMissing?)
  {
    if env.rtdOutcome.WinaxMissing? {
      var twoKeys := map["tosConnected" := JBool(false), "needsWinax" := JBool(true)];
      assert "needsWinax" in twoKeys && "needsWinax" !in map["tosConnected" := JBool(false)];
    }
  }

  /** `start-server` without a port, or with port 0, listens on 8765. */
  lemma StartServerDefaultPort(b: Bridge, env: Env, port: Option<int>)
    requires port.None? || port.value == 0
    ensures var r := ApplyCommand(b, StartServer(port), env);
      r.next.server && ToParent(Status(map["serverRunning" := JBool(true), "port" := JNum(8765),
        "localIP" := JStr(env.localIP), "wsUrl" := JStr("ws://" + env.localIP + ":" + "8765")])) in r.out
  {
    assert IntToString(8765) == "8765" by {
      assert NatToString(8765) == NatToString(876) + ['5'];
      assert NatToString(876) == NatToString(87) + ['6'];
      assert NatToString(87) == NatToString(8) + ['7'];
    }
  }

  /**
   * `start-server` with a port outside 0 to 65535 (a negative one is truthy,
   * so `|| 8765` keeps it) throws: nothing is written and nothing changes.
   */
  lemma StartServerBadPort(b: Bridge, env: Env, port: int)
    requires port < 0 || port > 65535
    ensures Throws(StartServer(Some(port)))
    ensures ApplyCommand(b, StartServer(Some(port)), env) == Step(b, [])
  {
  }

  // ----------------------------------------------------------- stdin chunks

  /** `data.toString().split('\n').filter(l => l.trim())`. */
  function CommandLines(chunk: string): (lines: seq<string>)
    ensures forall l :: l in lines ==> '\n' !in l && !IsBlank(l)
  {
    DropBlank(Split(chunk, '\n'))
  }

  /**
   * The `for` loop over one chunk's lines. A line that fails to parse, or a
   * command that throws, abandons the rest of the chunk (the `catch` is
   * outside the loop); `quit` ends the process; unknown commands do nothing.
   */
  function RunLines(b: Bridge, lines: seq<string>, parse: Parser, env: Env): (r: Step)
    ensures r.next.subs == b.subs && r.next.order == b.order && r.next.clients == b.clients
    ensures Untyped(r.out)
    decreases |lines|
  {
    if lines == [] then Step(b, [])
    else
      match parse(lines[0])
      case None => Step(b, [])
      case Some(cmd) =>
        var first := ApplyCommand(b, cmd, env);
        if cmd.Quit? || Throws(cmd) then first
        else
          var rest := RunLines(first.next, lines[1..], parse, env);
          Step(rest.next, first.out + rest.out)
  }

  /** The loop over a chunk's lines, from line `i` on, in terms of line `i` and the lines after it. */
  lemma RunLinesStep(b: Bridge, lines: seq<string>, i: nat, parse: Parser, env: Env)
    requires i < |lines|
    ensures parse(lines[i]).None? ==> RunLines(b, lines[i..], parse, env) == Step(b, [])
    ensures parse(lines[i]).Some? ==>
      var first := ApplyCommand(b, parse(lines[i]).value, env);
      var rest := RunLines(first.next, lines[i + 1..], parse, env);
      RunLines(b, lines[i..], parse, env)
        == if parse(lines[i]).value.Quit? || Throws(parse(lines[i]).value) then first
           else Step(rest.next, first.out + rest.out)
  {
    assert lines[i..][0] == lines[i];
    assert lines[i..][1..] == lines[i + 1..];
  }

  /** The `data` handler of `process.stdin`, for one chunk. */
  function HandleChunk(b: Bridge, chunk: string, parse: Parser, env: Env): (r: Step)
    ensures r.next.subs == b.subs && r.next.order == b.order && r.next.clients == b.clients
    ensures Valid(b) ==> Valid(r.next)
    ensures Untyped(r.out)
  {
    RunLines(b, CommandLines(chunk), parse, env)
  }

  /**
   * Once a line fails to parse, or its command throws, neither that line nor
   * anything after it in the chunk has any effect.
   */
  lemma {:induction false} FailedLineAbandonsRest(b: Bridge, before: seq<string>, bad: string, after: seq<string>,
                                                  parse: Parser, env: Env)
    requires parse(bad).None? || Throws(parse(bad).value)
    ensures RunLines(b, before + [bad] + after, parse, env) == RunLines(b, before, parse, env)
    decreases |before|
  {
    var lines := before + [bad] + after;
    if before == [] {
      assert lines[0] == bad;
    } else {
      assert lines[0] == before[0];
      assert lines[1..] == before[1..] + [bad] + after;
      match parse(before[0])
      case None =>
      case Some(cmd) =>
        if !cmd.Quit? && !Throws(cmd) {
          FailedLineAbandonsRest(ApplyCommand(b, cmd, env).next, before[1..], bad, after, parse, env);
        }
    }
  }

  /** After `quit`, the rest of the chunk is never read. */
  lemma {:induction false} QuitEndsChunk(b: Bridge, before: seq<string>, quit: string, after: seq<string>,
                                         parse: Parser, env: Env)
    requires parse(quit) == Some(Quit)
    ensures RunLines(b, before + [quit] + after, parse, env) == RunLines(b, before + [quit], parse, env)
    decreases |before|
  {
    var lines := before + [quit] + after;
    if before == [] {
      assert lines[0] == quit;
    } else {
      assert lines[0] == before[0];
      assert lines[1..] == before[1..] + [quit] + after;
      assert (before + [quit])[1..] == before[1..] + [quit];
      match parse(before[0])
      case None =>
      case Some(cmd) =>
        if !cmd.Quit? && !Throws(cmd) {
          QuitEndsChunk(ApplyCommand(b, cmd, env).next, before[1..], quit, after, parse, env);
        }
    }
  }

  /** A command of any other type is skipped, and the loop goes on with the next line. */
  lemma OtherCommandSkipped(b: Bridge, line: string, rest: seq<string>, parse: Parser, env: Env)
    requires parse(line).Some? && parse(line).value.OtherCommand?
    ensures RunLines(b, [line] + rest, parse, env) == RunLines(b, rest, parse, env)
  {
    assert ([line] + rest)[1..] == rest;
    var r := RunLines(b, rest, parse, env);
    assert [] + r.out == r.out;
  }

  /**
   * There is no buffering across chunks: a chunk without a newline is taken
   * as one complete line, so a record split over two reads is parsed as two
   * fragments.
   */
  lemma UnterminatedChunkIsOneLine(chunk: string)
    requires '\n' !in chunk && !IsBlank(chunk)
    ensures CommandLines(chunk) == [chunk]
  {
    SplitWithoutSeparator(chunk, '\n');
  }

  /**
   * Newline-separated records come out as exactly the non-blank records, in
   * order and with repetitions kept.
   */
  lemma CommandLinesOfJoin(parts: seq<string>)
    requires |parts| >= 1
    requires forall i :: 0 <= i < |parts| ==> '\n' !in parts[i]
    ensures CommandLines(Join(parts, '\n')) == DropBlank(parts)
  {
    SplitJoin(parts, '\n');
  }

  /** Two records in one chunk are two lines; the trailing newline adds nothing. */
  lemma TwoRecordsInOneChunk(first: string, second: string)
    requires '\n' !in first && '\n' !in second
    requires !IsBlank(first) && !IsBlank(second)
    ensures CommandLines(first + "\n" + second + "\n") == [first, second]
  {
    var parts := [first, second, ""];
    assert Join(parts, '\n') == first + "\n" + second + "\n" by {
      assert parts[1..] == [second, ""];
      assert parts[1..][1..] == [""];
      assert Join([second, ""], '\n') == second + "\n" + "";
    }
    SplitJoin(parts, '\n');
    assert IsBlank("");
    assert DropBlank([""]) == [];
    assert [second, ""][1..] == [""];
    assert DropBlank([second, ""]) == [second];
    assert parts[1..] == [second, ""];
    assert DropBlank(parts) == [first] + DropBlank([second, ""]);
  }

  // --------------------------------------------------------------- start-up

  /** The worker's start-up: a greeting log line, `initializeRTD()`, `startServer()`. */
  function Boot(env: Env): (r: Step)
    ensures Valid(r.next) && r.next.server && r.next.rtd == env.rtdOutcome.RtdReady?
    ensures r.next.subs == map[] && r.next.clients == []
    ensures Untyped(r.out)
  {
    var init := InitializeRtd(Fresh, env.rtdOutcome);
    var serve := StartListener(init.next, DefaultPort, env.localIP);
    Step(serve.next, [ToParent(Log("TOS Bridge Worker starting...", "info"))] + init.out + serve.out)
  }
}
