/**
 * The bridge worker (bridge-worker.js) as the program runs it: module-level
 * state that event handlers update in place. Every handler is proved to
 * follow the matching function of BridgeModel, so the properties proved
 * there hold of this class.
 */
module BridgeWorker {
  import opened Wrappers
  import opened Text
  import opened TosSymbol
  import opened Json
  import opened BridgeModel

  class Worker {
    /** `rtd !== null` */
    var rtd: bool
    /** `wss !== null` */
    var server: bool
    /** The `subscriptions` Map: its entries, and its keys in insertion order. */
    var subscriptions: map<string, Sub>
    var order: seq<string>
    /** The `clients` Set, in insertion order. */
    var clients: seq<ClientId>
    /** Whether `process.exit` has been called. */
    var exited: bool
    /** Everything written so far: lines to the parent and messages to clients. */
    var out: seq<Output>

    function Model(): Bridge
      reads this
    {
      Bridge(rtd, server, subscriptions, order, clients, exited)
    }

    ghost predicate Valid()
      reads this
    {
      BridgeModel.Valid(Model())
    }

    /** Process start: log, `initializeRTD()`, `startServer()`. */
    constructor (env: Env)
      ensures Valid()
      ensures Model() == Boot(env).next && out == Boot(env).out
    {
      rtd, server := false, false;
      subscriptions, order, clients := map[], [], [];
      exited := false;
      out := [ToParent(Log("TOS Bridge Worker starting...", "info"))];
      new;
      InitializeRtd(env.rtdOutcome);
      var _ := StartListener(DefaultPort, env.localIP);
    }

    /** `initializeRTD()`. */
    method InitializeRtd(outcome: RtdOutcome)
      requires Valid()
      modifies this
      ensures Valid()
      ensures Model() == BridgeModel.InitializeRtd(old(Model()), outcome).next
      ensures out == old(out) + BridgeModel.InitializeRtd(old(Model()), outcome).out
    {
      match outcome
      case RtdReady =>
        rtd := true;
        out := out + [ToParent(Log("Connected to ThinkOrSwim RTD server", "success")),
                      ToParent(Status(map["tosConnected" := JBool(true)]))];
      case WinaxMissing =>
        out := out + [ToParent(Log("winax module not found!", "error")),
                      ToParent(Log("Please run: npm install -g winax", "error")),
                      ToParent(Log("Or run install-deps.bat in the app folder", "warning")),
                      ToParent(Status(map["tosConnected" := JBool(false), "needsWinax" := JBool(true)]))];
      case RtdError(message) =>
        if Contains(message, "Class not registered") || Contains(message, "tos.rtd") {
          out := out + [ToParent(Log("ThinkOrSwim RTD server not found", "error")),
                        ToParent(Log("Make sure ThinkOrSwim is running and logged in", "warning"))];
        } else {
          out := out + [ToParent(Log("Failed to connect to TOS RTD: " + message, "error"))];
        }
        out := out + [ToParent(Status(map["tosConnected" := JBool(false)]))];
    }

    /**
     * `startServer(port)`, with the listener reduced to the `wss !== null`
     * flag; `thrown` is set when `listen` rejects the port.
     */
    method StartListener(port: int, localIP: string) returns (thrown: bool)
      requires Valid()
      modifies this
      ensures Valid()
      ensures thrown == !PortAccepted(port)
      ensures Model() == BridgeModel.StartListener(old(Model()), port, localIP).next
      ensures out == old(out) + BridgeModel.StartListener(old(Model()), port, localIP).out
    {
      if !(0 <= port <= 65535) {
        return true;
      }
      thrown := false;
      var p := IntToString(port);
      var url := "ws://" + localIP + ":" + p;
      server := true;
      out := out + [ToParent(Log("WebSocket server started on port " + p, "success")),
                    ToParent(Log("Local URL: ws://localhost:" + p, "info")),
                    ToParent(Log("Network URL: " + url, "info")),
                    ToParent(Status(map["serverRunning" := JBool(true), "port" := JNum(port),
                                        "localIP" := JStr(localIP), "wsUrl" := JStr(url)]))];
    }

    /** A client's `message` event: parse, then `handleClientMessage(ws, msg)`. */
    method HandleClientMessage(c: ClientId, m: Inbound)
      requires Valid()
      modifies this
      ensures Valid()
      ensures Model() == BridgeModel.HandleClientMessage(old(Model()), c, m).next
      ensures out == old(out) + BridgeModel.HandleClientMessage(old(Model()), c, m).out
    {
      match m
      case Malformed(error) =>
        out := out + [ToParent(Log("Invalid message from client: " + error, "error"))];
      case Parsed(Subscribe(e, k, t)) =>
        Subscribe(c, e, k, t);
      case Parsed(Unsubscribe(e, k, t)) =>
        Unsubscribe(c, e, k, t);
      case Parsed(Ping) =>
        out := out + [ToClient(c, Pong)];
      case Parsed(UnknownType(tag)) =>
        out := out + [ToParent(Log("Unknown message type: " + tag, "warning"))];
    }

    /** The `subscribe` case of `handleClientMessage`. */
    method Subscribe(c: ClientId, e: string, k: string, t: string)
      requires Valid()
      modifies this
      ensures Valid()
      ensures Model() == BridgeModel.HandleClientMessage(old(Model()), c, Parsed(ClientMessage.Subscribe(e, k, t))).next
      ensures out == old(out) + BridgeModel.HandleClientMessage(old(Model()), c, Parsed(ClientMessage.Subscribe(e, k, t))).out
    {
      var symbol := BuildTOSSymbol(e, k, t);
      var key := SubscriptionKey(e, k, t);
      ghost var b' := Put(Model(), key, Sub(symbol, e, k, t));
      SubscribeStep(Model(), c, e, k, t);
      if key !in subscriptions {
        order := order + [key];
      }
      subscriptions := subscriptions[key := Sub(symbol, e, k, t)];
      assert Model() == b';
      out := out + [ToParent(Log("Subscribed to " + symbol, "info")),
                    ToParent(Status(map["subscriptionCount" := JNum(|subscriptions|)])),
                    ToClient(c, Subscribed(symbol, e, k, t))];
    }

    static lemma SubscribeStep(b: Bridge, c: ClientId, e: string, k: string, t: string)
      ensures var symbol := BuildTOSSymbol(e, k, t);
        var b' := Put(b, SubscriptionKey(e, k, t), Sub(symbol, e, k, t));
        BridgeModel.HandleClientMessage(b, c, Parsed(ClientMessage.Subscribe(e, k, t)))
          == Step(b', [ToParent(Log("Subscribed to " + symbol, "info")), ToParent(SubscriptionCount(b')),
                       ToClient(c, Subscribed(symbol, e, k, t))])
    {
    }

    /** The `unsubscribe` case of `handleClientMessage`. */
    method Unsubscribe(c: ClientId, e: string, k: string, t: string)
      requires Valid()
      modifies this
      ensures Valid()
      ensures Model() == BridgeModel.HandleClientMessage(old(Model()), c, Parsed(ClientMessage.Unsubscribe(e, k, t))).next
      ensures out == old(out) + BridgeModel.HandleClientMessage(old(Model()), c, Parsed(ClientMessage.Unsubscribe(e, k, t))).out
    {
      var key := SubscriptionKey(e, k, t);
      if key in subscriptions {
        var sub := subscriptions[key];
        out := out + [ToParent(Log("Unsubscribed from " + sub.symbol, "info"))];
        subscriptions := subscriptions - {key};
        order := Without(order, key);
        out := out + [ToParent(Status(map["subscriptionCount" := JNum(|subscriptions|)]))];
      }
    }

    /** The listener's `connection` event. */
    method OnConnection(c: ClientId, address: string)
      requires Valid()
      modifies this
      ensures Valid()
      ensures Model() == BridgeModel.OnConnection(old(Model()), c, address).next
      ensures out == old(out) + BridgeModel.OnConnection(old(Model()), c, address).out
    {
      out := out + [ToParent(Log("Client connected from " + address, "success"))];
      if c !in clients {
        clients := clients + [c];
      }
      out := out + [ToParent(Status(map["clientCount" := JNum(|clients|)])),
                    ToClient(c, Greeting(rtd))];
    }

    /** A client's `close` event. */
    method OnClientClose(c: ClientId, address: string)
      requires Valid()
      modifies this
      ensures Valid()
      ensures Model() == BridgeModel.OnClientClose(old(Model()), c, address).next
      ensures out == old(out) + BridgeModel.OnClientClose(old(Model()), c, address).out
    {
      out := out + [ToParent(Log("Client disconnected from " + address, "warning"))];
      clients := Without(clients, c);
      out := out + [ToParent(Status(map["clientCount" := JNum(|clients|)]))];
    }

    /** A client's `error` event. */
    method OnClientError(c: ClientId, message: string)
      requires Valid()
      modifies this
      ensures Valid()
      ensures Model() == BridgeModel.OnClientError(old(Model()), c, message).next
      ensures out == old(out) + BridgeModel.OnClientError(old(Model()), c, message).out
    {
      out := out + [ToParent(Log("Client error: " + message, "error"))];
      clients := Without(clients, c);
      out := out + [ToParent(Status(map["clientCount" := JNum(|clients|)]))];
    }

    /** The listener's `error` event. */
    method OnServerError(message: string)
      requires Valid()
      modifies this
      ensures Valid()
      ensures Model() == old(Model())
      ensures out == old(out) + BridgeModel.OnServerError(old(Model()), message).out
    {
      out := out + [ToParent(Log("Server error: " + message, "error")),
                    ToParent(Status(map["serverRunning" := JBool(false)]))];
    }

    /**
     * The nine provider lookups of one subscription, coerced as
     * `pollAndBroadcast` coerces them; `lookups` records each call as it is made.
     */
    static method ReadSample(sub: Sub, quote: Provider, now: int) returns (q: Sample, lookups: seq<Query>)
      ensures q == SampleOf(sub, quote, now)
      ensures lookups == QueriesOf(sub.symbol)
    {
      var symbol := sub.symbol;
      var bid := OrZero(quote(symbol, BID));
      lookups := [Query(symbol, BID)];
      var ask := OrZero(quote(symbol, ASK));
      lookups := lookups + [Query(symbol, ASK)];
      var last := OrZero(quote(symbol, LAST));
      lookups := lookups + [Query(symbol, LAST)];
      var volume := VolumeOf(quote(symbol, VOLUME));
      lookups := lookups + [Query(symbol, VOLUME)];
      var delta := OrZero(quote(symbol, DELTA));
      lookups := lookups + [Query(symbol, DELTA)];
      var gamma := OrZero(quote(symbol, GAMMA));
      lookups := lookups + [Query(symbol, GAMMA)];
      var theta := OrZero(quote(symbol, THETA));
      lookups := lookups + [Query(symbol, THETA)];
      var vega := OrZero(quote(symbol, VEGA));
      lookups := lookups + [Query(symbol, VEGA)];
      var iv := OrZero(quote(symbol, IMPL_VOL));
      lookups := lookups + [Query(symbol, IMPL_VOL)];
      NineLookups(symbol);
      Nine(Query(symbol, BID), Query(symbol, ASK), Query(symbol, LAST), Query(symbol, VOLUME),
           Query(symbol, DELTA), Query(symbol, GAMMA), Query(symbol, THETA), Query(symbol, VEGA),
           Query(symbol, IMPL_VOL));
      q := Sample(symbol, sub.expiration, sub.strike, sub.optionType,
                  bid, ask, last, volume, delta, gamma, theta, vega, iv, now);
    }

    static lemma NineLookups(symbol: string)
      ensures QueriesOf(symbol)
           == [Query(symbol, BID), Query(symbol, ASK), Query(symbol, LAST), Query(symbol, VOLUME),
               Query(symbol, DELTA), Query(symbol, GAMMA), Query(symbol, THETA), Query(symbol, VEGA),
               Query(symbol, IMPL_VOL)]
    {
    }

    static lemma Nine<T>(a: T, b: T, c: T, d: T, e: T, f: T, g: T, h: T, i: T)
      ensures [a] + [b] + [c] + [d] + [e] + [f] + [g] + [h] + [i] == [a, b, c, d, e, f, g, h, i]
    {
    }

    /** `for (const client of clients)`: send `msg` to every client whose socket is open. */
    method Broadcast(isOpen: Readiness, msg: ClientMsg)
      modifies this`out
      ensures out == old(out) + Fanout(clients, isOpen, msg)
    {
      var j := 0;
      while j < |clients|
        invariant 0 <= j <= |clients|
        modifies this`out
        invariant out == old(out) + Fanout(clients[..j], isOpen, msg)
      {
        if isOpen(clients[j]) {
          out := out + [ToClient(clients[j], msg)];
        }
        assert clients[..j + 1][..j] == clients[..j];
        j := j + 1;
      }
      assert clients[..j] == clients;
    }

    /** The body of the loop over `subscriptions`: read one sample, send it if it passes the suppression rule. */
    method PollSubscription(sub: Sub, quote: Provider, isOpen: Readiness, now: int) returns (lookups: seq<Query>)
      modifies this`out
      ensures lookups == QueriesOf(sub.symbol)
      ensures out == old(out) + PollOne(sub, clients, quote, isOpen, now)
    {
      var q;
      q, lookups := ReadSample(sub, quote, now);
      PollOneOf(sub, clients, quote, isOpen, now, q);
      if Quotable(q) {
        Broadcast(isOpen, QuoteMsg(q));
      }
    }

    static lemma PollOneOf(sub: Sub, clients: seq<ClientId>, quote: Provider, isOpen: Readiness, now: int, q: Sample)
      requires q == SampleOf(sub, quote, now)
      ensures PollOne(sub, clients, quote, isOpen, now) == if Quotable(q) then Fanout(clients, isOpen, QuoteMsg(q)) else []
    {
    }

    /**
     * `pollAndBroadcast()`: returns the provider lookups it made, appends the
     * quotes it sent, and changes no state.
     */
    method PollAndBroadcast(quote: Provider, isOpen: Readiness, now: int) returns (queries: seq<Query>)
      requires Valid()
      modifies this`out
      ensures Model() == old(Model())
      ensures queries == PollTick(old(Model()), quote, isOpen, now).queries
      ensures out == old(out) + PollTick(old(Model()), quote, isOpen, now).out
    {
      queries := [];
      if !rtd || |subscriptions| == 0 || |clients| == 0 {
        return;
      }
      queries := PollRegistry(order, quote, isOpen, now);
    }

    /** The loop over the registry, in its insertion order `keys`. */
    method PollRegistry(keys: seq<string>, quote: Provider, isOpen: Readiness, now: int) returns (queries: seq<Query>)
      requires forall k :: k in keys ==> k in subscriptions
      modifies this`out
      ensures queries == PollQueries(keys, subscriptions)
      ensures out == old(out) + PollKeys(keys, subscriptions, clients, quote, isOpen, now)
    {
      queries := [];
      assert keys[..0] == [];
      var i := 0;
      while i < |keys|
        invariant 0 <= i <= |keys|
        modifies this`out
        invariant forall k :: k in keys[..i] ==> k in subscriptions
        invariant queries == PollQueries(keys[..i], subscriptions)
        invariant out == old(out) + PollKeys(keys[..i], subscriptions, clients, quote, isOpen, now)
      {
        PollStep(keys, subscriptions, clients, quote, isOpen, now, i);
        ghost var before := out;
        var lookups := PollSubscription(subscriptions[keys[i]], quote, isOpen, now);
        queries := queries + lookups;
        AppendAssoc(old(out), PollKeys(keys[..i], subscriptions, clients, quote, isOpen, now),
                    PollOne(subscriptions[keys[i]], clients, quote, isOpen, now));
        i := i + 1;
      }
      assert keys[..i] == keys;
    }

    static lemma AppendAssoc<T>(a: seq<T>, b: seq<T>, c: seq<T>)
      ensures (a + b) + c == a + (b + c)
    {
    }

    /**
     * One command of the `switch (cmd.type)` in the stdin handler; `thrown`
     * is set when the command throws out of the loop.
     */
    method ApplyCommand(cmd: Command, env: Env) returns (thrown: bool)
      requires Valid()
      modifies this
      ensures Valid()
      ensures thrown == Throws(cmd)
      ensures Model() == BridgeModel.ApplyCommand(old(Model()), cmd, env).next
      ensures out == old(out) + BridgeModel.ApplyCommand(old(Model()), cmd, env).out
    {
      thrown := false;
      match cmd
      case ConnectTos =>
        InitializeRtd(env.rtdOutcome);
      case StartServer(port) =>
        thrown := StartListener(ServerPort(port), env.localIP);
      case GetStatus =>
        out := out + [ToParent(StatusReport(Model()))];
      case Quit =>
        exited := true;
      case OtherCommand(_) =>
    }

    /**
     * One line of a chunk: parse it and apply its command. `stop` is set when
     * the rest of the chunk is abandoned: the line does not parse, its
     * command throws, or it is `quit`.
     */
    method RunLine(line: string, parse: Parser, env: Env) returns (stop: bool)
      requires Valid()
      modifies this
      ensures Valid()
      ensures stop == (parse(line).None? || parse(line).value.Quit? || Throws(parse(line).value))
      ensures parse(line).None? ==> Model() == old(Model()) && out == old(out)
      ensures parse(line).Some? ==>
        && Model() == BridgeModel.ApplyCommand(old(Model()), parse(line).value, env).next
        && out == old(out) + BridgeModel.ApplyCommand(old(Model()), parse(line).value, env).out
    {
      var parsed := parse(line);
      if parsed.None? {
        return true;
      }
      var thrown := ApplyCommand(parsed.value, env);
      stop := parsed.value.Quit? || thrown;
    }

    /** The `data` handler of `process.stdin`, for one chunk. */
    method HandleStdin(chunk: string, parse: Parser, env: Env)
      requires Valid()
      modifies this
      ensures Valid()
      ensures Model() == HandleChunk(old(Model()), chunk, parse, env).next
      ensures out == old(out) + HandleChunk(old(Model()), chunk, parse, env).out
    {
      var lines := CommandLines(chunk);
      ghost var total := RunLines(Model(), lines, parse, env);
      ChunkLines(Model(), chunk, parse, env);
      var i := 0;
      while i < |lines|
        invariant 0 <= i <= |lines|
        invariant Valid()
        invariant RunLines(Model(), lines[i..], parse, env).next == total.next
        invariant out + RunLines(Model(), lines[i..], parse, env).out == old(out) + total.out
      {
        ghost var before, here := out, Model();
        var stop := RunLine(lines[i], parse, env);
        LineStep(old(out), total, here, before, Model(), out, lines, i, parse, env);
        if stop {
          break;
        }
        i := i + 1;
      }
      assert i == |lines| ==> lines[i..] == [] && out + [] == out;
    }

    static lemma ChunkLines(b: Bridge, chunk: string, parse: Parser, env: Env)
      ensures HandleChunk(b, chunk, parse, env) == RunLines(b, CommandLines(chunk), parse, env)
    {
    }

    /** How one line of the chunk advances the loop of `HandleStdin`. */
    static lemma LineStep(start: seq<Output>, total: Step, here: Bridge, before: seq<Output>,
                          now: Bridge, after: seq<Output>, lines: seq<string>, i: nat, parse: Parser, env: Env)
      requires i < |lines|
      requires RunLines(here, lines[i..], parse, env).next == total.next
      requires before + RunLines(here, lines[i..], parse, env).out == start + total.out
      requires parse(lines[i]).None? ==> now == here && after == before
      requires parse(lines[i]).Some? ==>
        && now == BridgeModel.ApplyCommand(here, parse(lines[i]).value, env).next
        && after == before + BridgeModel.ApplyCommand(here, parse(lines[i]).value, env).out
      ensures parse(lines[i]).None? || parse(lines[i]).value.Quit? || Throws(parse(lines[i]).value) ==>
        now == total.next && after == start + total.out
      ensures !(parse(lines[i]).None? || parse(lines[i]).value.Quit? || Throws(parse(lines[i]).value)) ==>
        && RunLines(now, lines[i + 1..], parse, env).next == total.next
        && after + RunLines(now, lines[i + 1..], parse, env).out == start + total.out
    {
      RunLinesStep(here, lines, i, parse, env);
      if parse(lines[i]).None? {
        assert before + [] == before;
      } else {
        var first := BridgeModel.ApplyCommand(here, parse(lines[i]).value, env);
        AppendAssoc(before, first.out, RunLines(first.next, lines[i + 1..], parse, env).out);
      }
    }
  }
}
