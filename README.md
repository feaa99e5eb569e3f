# TOS Bridge in Dafny

TOS Bridge relays option quotes from a locally running ThinkOrSwim RTD
server to WebSocket clients. Two processes make it up:

- the **bridge worker** (`bridge-worker.js`): it keeps the registry of
  subscriptions clients ask for. It polls the RTD provider every 500 ms and
  fans the quotes out to every open client. It takes commands from its
  parent on stdin and reports log lines and status records on stdout;
- the **supervisor** (`main.js`, the Electron main process): it spawns and
  stops the worker. It reads the worker's output line by line, keeps the
  status snapshot shown in the window, and answers the window's IPC
  requests.

This project models both as state machines and proves properties of them.
Each module plays one role:

| module | file | contents |
|---|---|---|
| `Wrappers` | `wrappers.dfy` | `Option` |
| `Text` | `text.dfy` | the JavaScript string operations the code relies on: `trim`, `split` on one character, `filter(l => l.trim())`, `includes`, decimal rendering |
| `Json` | `json.dfy` | parsed JSON values, and `{ type, ...data }` |
| `TosSymbol` | `tos_symbol.dfy` | `buildTOSSymbol` and the registry key |
| `BridgeModel` | `bridge_model.dfy` | the worker as pure functions: each event maps the state to the next state and the records it writes; lemmas about them |
| `BridgeWorker` | `bridge_worker.dfy` | class `Worker`: the worker's module-level variables as fields, and one method per event, loops included, each proved to follow `BridgeModel` |
| `SupervisorModel` | `supervisor_model.dfy` | the supervisor as pure functions: status merge, line dispatch, worker lifecycle, timers, IPC answers; lemmas about them |
| `MainProcess` | `supervisor.dfy` | class `Supervisor`: `currentStatus` and `bridgeProcess` as fields, one method per callback, each proved to follow `SupervisorModel` |
| `Protocol` | `protocol.dfy` | the records the worker writes, as the supervisor parses them; lemmas that join the two machines |

Conventions of the model:

- **Registry and client set.** JavaScript's `Map` and `Set` iterate in
  insertion order. The registry is therefore a `map` plus the sequence of its
  keys in insertion order. The client set is a duplicate-free sequence of
  client identities.
- **Strike.** A strike is carried as the text the template literal inserts.
- **Provider.** The RTD provider is an oracle from (symbol, field) to
  `Option<real>`. `None` stands for `null`, a thrown error, or a value that
  `parseFloat` turns into `NaN`.
- **Socket readiness.** A client's `readyState` at send time is an oracle
  from client to `bool`.
- **Worker output.** What the worker writes is a sequence of records: to the
  parent, or to one client.
- **Supervisor effects.** What the supervisor does that is visible outside
  it is a sequence of effects: log lines, console lines, status pushes,
  spawns, stdin writes and kills.
- **Timers and callbacks.** Every timer and every asynchronous callback is
  an explicit event.

Three behaviours of the code that a reader might not expect are modelled as
the code has them:

- **No buffering across reads.** The worker splits each stdin read on its
  own: a line that arrives in two reads is taken as two lines
  (`UnterminatedChunkIsOneLine`).
- **A bad line drops the rest of the read.** The worker's `try` surrounds the
  whole loop over a read's lines. A line that does not parse, or a command
  that throws, therefore also abandons the lines after it in the same read
  (`FailedLineAbandonsRest`).
- **The kill timer kills whichever worker is current.** The supervisor's
  1000 ms timer kills the worker that is current when it fires, not
  necessarily the one that armed it (see Findings).

## Model

| member | source | states |
|---|---|---|
| TosSymbol.ShortYear | bridge-worker.js:45 | the year without its first two characters; empty when shorter |
| TosSymbol.TypeLetter | bridge-worker.js:46 | the type letter is `C` exactly when the option type is the string `CALL`, and `P` for anything else |
| TosSymbol.BuildTOSSymbol | bridge-worker.js:43-48 | every symbol starts with `.SPXW`, ends with the strike, and has the type letter just before the strike |
| TosSymbol.SymbolOfDate | bridge-worker.js:43-47 | for a date `year-month-day` whose parts contain no `-` and whose year has at least two characters, the symbol is `.SPXW`, the year without its first two characters, the month, the day, the type letter and the strike |
| TosSymbol.SymbolExample | bridge-worker.js:43-47 | expiration 2025-03-21, strike 5900, `CALL` gives `.SPXW250321C5900` |
| TosSymbol.SymbolOfUndashedDate | bridge-worker.js:44-47 | an expiration without `-` leaves month and day missing, and the symbol carries `undefined` twice in their place |
| TosSymbol.SubscriptionKey | bridge-worker.js:210 | the key is the expiration, `:`, the strike, `:` and the option type, each at its position |
| TosSymbol.KeyInjective | bridge-worker.js:210 | when neither expiration nor strike contains `:`, the key `expiration:strike:optionType` determines all three |
| Text.Trim | main.js:85 | the result is the slice of the input between a blank prefix and a blank suffix; it starts and ends with a character that is not whitespace; it is empty exactly when the input is all whitespace |
| Text.Split | bridge-worker.js:44 | the pieces contain no separator, there is at least one, and joining them with the separator gives the input back |
| Text.SplitJoin | bridge-worker.js:44 | splitting undoes joining for separator-free pieces |
| Text.DropBlank | bridge-worker.js:251 | a line is kept exactly when it is in the input and not blank; no more lines come out than went in; a single line is kept exactly when it is not blank |
| Text.DropBlankAppend | bridge-worker.js:251 | filtering a concatenation is filtering each part: order and repetitions are kept |
| Text.DecimalRoundTrip | bridge-worker.js:150-152 | reading back the decimal rendering of a number gives the number |
| Text.IntToString | main.js:92 | the rendering starts with `-` exactly for negative numbers; the rest is decimal digits whose value is the number's magnitude, with no leading zero unless the magnitude is the single digit `0` |
| Json.Tagged | bridge-worker.js:20-22 | `{ type, ...data }` has `type` and every field of `data` with its value, and nothing else |
| BridgeModel.Without | bridge-worker.js:184 | `clients.delete`: the result holds every element except the removed one; it remains duplicate-free; it is unchanged when the element is absent |
| BridgeModel.WithoutKeepsOrder | bridge-worker.js:233 | removing a listed element of a duplicate-free sequence leaves the elements before it and after it, each in their order |
| BridgeModel.Put | bridge-worker.js:212 | `subscriptions.set`: the entry is stored under the key; every other entry stays; the key joins the order at the end exactly when it is new; the invariant is kept |
| BridgeModel.Delete | bridge-worker.js:233 | `subscriptions.delete`: exactly that key goes; every other entry stays; the key leaves the order; the invariant is kept |
| BridgeModel.DistinctCard | bridge-worker.js:165 | a duplicate-free sequence is as long as the set it holds, so `clients.size` is the number of clients |
| BridgeModel.HandleClientMessage | bridge-worker.js:205-246 | a client message never changes the provider, the listener or the client set, and it keeps the registry invariant (each key listed once, list and map agree) |
| BridgeModel.SubscribeStores | bridge-worker.js:207-212 | subscribe stores one entry under `expiration:strike:optionType` with the computed symbol; every other key and entry is kept; the registry grows by one exactly when the key is new |
| BridgeModel.SubscribeIdempotent | bridge-worker.js:208-212 | subscribing twice to the same contract leaves the same state as subscribing once |
| BridgeModel.SubscribeReplies | bridge-worker.js:213-222 | subscribe sends exactly one client message, `subscribed` with the computed symbol, to the initiator only, and reports the registry size to the parent |
| BridgeModel.UnsubscribeAbsent | bridge-worker.js:226-236 | unsubscribing an unregistered key changes nothing and emits nothing |
| BridgeModel.UnsubscribePresent | bridge-worker.js:226-236 | unsubscribing a registered key removes exactly that key, keeps the other keys in their order, shrinks the registry by one, reports the new size and replies to no client |
| BridgeModel.PingPongs | bridge-worker.js:239-241 | ping changes nothing and sends one `pong`, to the initiator |
| BridgeModel.IgnoredMessages | bridge-worker.js:243-244 | an unknown type, or text that does not parse (lines 177-179), changes nothing, sends nothing to any client and writes one log record |
| BridgeModel.OnConnection | bridge-worker.js:161-171 | a connection keeps the invariant |
| BridgeModel.ConnectionJoins | bridge-worker.js:161-171 | the new client is appended to the end of the set unless already in it; the registry, the provider and listener flags and the exit flag are unchanged; the parent hears the new set size; the client alone is greeted with the provider's connectivity |
| BridgeModel.OnClientClose | bridge-worker.js:182-186 | a disconnect keeps the invariant |
| BridgeModel.OnClientError | bridge-worker.js:188-192 | a client error keeps the invariant |
| BridgeModel.DisconnectRemovesOnlyThatClient | bridge-worker.js:182-192 | close or error removes that client and no other; the registry, provider and listener stay; the new size is reported; no client is written to |
| BridgeModel.DisconnectKeepsOthersFed | bridge-worker.js:182-186 | after one client leaves, the subscriptions survive and every remaining open client still receives every quotable sample |
| BridgeModel.Truncate | bridge-worker.js:102 | `parseInt` of a number rounds toward zero: the result is within one of the input, on the side of zero |
| BridgeModel.SampleOf | bridge-worker.js:97-127 | a failed field reads 0; any other field carries the provider's value; volume is truncated; the rest comes from the subscription and the tick's time |
| BridgeModel.QueriesOf | bridge-worker.js:99-107 | nine distinct lookups per subscription, all for its symbol, one for each of the nine fields |
| BridgeModel.PollQueries | bridge-worker.js:96-107 | a tick makes nine lookups for each listed subscription |
| BridgeModel.PollQueriesCover | bridge-worker.js:96-107 | every field of every listed subscription's symbol is looked up, and every lookup is of a listed subscription's symbol |
| BridgeModel.Fanout | bridge-worker.js:130-135 | no more writes than clients, each a write to a client carrying the message (exactly once per open client by `BridgeModel.FanoutOnce`) |
| BridgeModel.PollOne | bridge-worker.js:109-135 | a sample that fails the suppression rule sends nothing; what is sent is that sample, in no more writes than there are clients |
| BridgeModel.PollKeys | bridge-worker.js:96-137 | everything sent is a quotable quote to a client |
| BridgeModel.PollTick | bridge-worker.js:93-138 | with no provider, no subscription or no client, a tick makes no lookup and sends nothing; otherwise every field of every registered subscription is looked up; every lookup is for a registered subscription; everything sent is a quotable quote to a client |
| BridgeModel.FanoutSound | bridge-worker.js:130-135 | a fan-out writes only the one message, and only to open clients of the set |
| BridgeModel.FanoutOnce | bridge-worker.js:131-135 | each open client of the set receives the message exactly once; every other client receives it zero times |
| BridgeModel.PollKeysSound | bridge-worker.js:96-137 | everything a poll sends passed the suppression rule, is the sample of a registered subscription, and goes to an open client |
| BridgeModel.PollKeysComplete | bridge-worker.js:96-137 | every quotable sample of a listed subscription reaches every open client |
| BridgeModel.TickSound | bridge-worker.js:109-135 | a tick sends a quote only if bid, ask or last is positive; the quote is the sample of a registered subscription and goes to an open client |
| BridgeModel.TickDelivers | bridge-worker.js:109-135 | when the tick runs, every quotable sample reaches every open client |
| BridgeModel.ServerPort | bridge-worker.js:259 | `cmd.port \|\| 8765`: never 0; a given non-zero port is used as is |
| BridgeModel.StartListener | bridge-worker.js:141-159 | a port outside 0 to 65535 makes `listen` throw, so nothing changes and nothing is written; otherwise the listener runs and a status record reports it running, the port, the local address and `ws://address:port` |
| BridgeModel.StartServerBadPort | bridge-worker.js:258-260 | `start-server` with a port outside 0 to 65535 throws, and changes and writes nothing |
| BridgeModel.InitializeRtd | bridge-worker.js:51-79 | success connects the provider and a failure keeps the previous one; only parent records are written, the last a status whose `tosConnected` is true exactly on success |
| BridgeModel.OnServerError | bridge-worker.js:195-198 | a listener error changes no state and reports `serverRunning: false` to the parent |
| BridgeModel.StatusReport | bridge-worker.js:261-267 | the `get-status` answer has exactly its four fields: the provider flag, the listener flag, the client-set size and the registry size |
| BridgeModel.ApplyCommand | bridge-worker.js:254-272 | no command touches the registry or the client set; the process has exited exactly after `quit`; a command that throws changes nothing and writes nothing; no status record written carries its own `type` |
| BridgeModel.GetStatusReports | bridge-worker.js:261-267 | `get-status` changes nothing and reports the provider and listener flags, the client set's size and the registry's size |
| BridgeModel.ConnectOutcome | bridge-worker.js:51-79 | `connect-tos` connects on success and otherwise keeps the previous connection; a status record holding only `tosConnected` (true exactly on success) is written exactly when `winax` loaded |
| BridgeModel.StartServerDefaultPort | bridge-worker.js:258-260 | `start-server` without a port, or with port 0, listens on 8765 and reports the URL with that port |
| BridgeModel.CommandLines | bridge-worker.js:251 | the lines of a read contain no newline and are not blank |
| BridgeModel.CommandLinesOfJoin | bridge-worker.js:251 | newline-separated records come out as exactly the non-blank records, in order, with repetitions |
| BridgeModel.RunLines | bridge-worker.js:252-273 | the command loop never touches the registry or the client set, and writes no status record that carries its own `type` |
| BridgeModel.HandleChunk | bridge-worker.js:249-277 | a read never touches the registry or the client set, keeps the invariant, and writes no status record that carries its own `type` |
| BridgeModel.FailedLineAbandonsRest | bridge-worker.js:250-276 | once a line fails to parse or its command throws, neither it nor any line after it in that read has an effect |
| BridgeModel.QuitEndsChunk | bridge-worker.js:269-271 | nothing after `quit` in a read is executed |
| BridgeModel.OtherCommandSkipped | bridge-worker.js:254-272 | a command of any other type does nothing, and the loop continues |
| BridgeModel.UnterminatedChunkIsOneLine | bridge-worker.js:249-251 | a read without newline is taken as one whole line: nothing is buffered across reads |
| BridgeModel.TwoRecordsInOneChunk | bridge-worker.js:251 | two newline-terminated records in one read are exactly two lines |
| BridgeModel.Boot | bridge-worker.js:279-282 | after start-up the listener runs, the provider is connected exactly when it was ready, and there are no subscriptions and no clients |
| BridgeWorker.Worker.constructor | bridge-worker.js:279-282 | the process start follows `BridgeModel.Boot` |
| BridgeWorker.Worker.InitializeRtd | bridge-worker.js:51-79 | `initializeRTD` follows `BridgeModel.InitializeRtd` and keeps the invariant |
| BridgeWorker.Worker.StartListener | bridge-worker.js:141-159 | `startServer` follows `BridgeModel.StartListener`, and reports a throw exactly for a port outside 0 to 65535 |
| BridgeWorker.Worker.HandleClientMessage | bridge-worker.js:173-180 | the `message` handler follows `BridgeModel.HandleClientMessage` and keeps the invariant |
| BridgeWorker.Worker.Subscribe | bridge-worker.js:207-224 | the `subscribe` case updates the Map and its key order as the model says |
| BridgeWorker.Worker.Unsubscribe | bridge-worker.js:226-237 | the `unsubscribe` case updates the Map and its key order as the model says |
| BridgeWorker.Worker.OnConnection | bridge-worker.js:161-171 | `clients.add` and the greeting, as `BridgeModel.OnConnection` |
| BridgeWorker.Worker.OnClientClose | bridge-worker.js:182-186 | `clients.delete` on close, as `BridgeModel.OnClientClose` |
| BridgeWorker.Worker.OnClientError | bridge-worker.js:188-192 | `clients.delete` on error, as `BridgeModel.OnClientError` |
| BridgeWorker.Worker.OnServerError | bridge-worker.js:195-198 | the listener error reports `serverRunning: false` and changes no state |
| BridgeWorker.Worker.ReadSample | bridge-worker.js:97-107 | the nine coerced lookups give `BridgeModel.SampleOf`, and the lookups recorded as they are made are `BridgeModel.QueriesOf`, in order |
| BridgeWorker.Worker.Broadcast | bridge-worker.js:130-135 | the loop over clients writes exactly `BridgeModel.Fanout` |
| BridgeWorker.Worker.PollSubscription | bridge-worker.js:96-136 | one iteration reports the lookups `ReadSample` made, which are `BridgeModel.QueriesOf`, and sends what `BridgeModel.PollOne` sends |
| BridgeWorker.Worker.PollRegistry | bridge-worker.js:96-137 | the loop over the registry makes `PollQueries` lookups and sends `PollKeys` |
| BridgeWorker.Worker.PollAndBroadcast | bridge-worker.js:93-138 | a tick changes no state and makes the lookups and sends of `BridgeModel.PollTick` |
| BridgeWorker.Worker.ApplyCommand | bridge-worker.js:254-272 | one `switch` case follows `BridgeModel.ApplyCommand`, and reports a throw exactly when `BridgeModel.Throws` holds |
| BridgeWorker.Worker.RunLine | bridge-worker.js:252-272 | one line is parsed and its command applied as `BridgeModel.ApplyCommand` says; the loop is told to stop exactly when the line does not parse, its command throws, or it is `quit` |
| BridgeWorker.Worker.HandleStdin | bridge-worker.js:249-277 | the stdin handler, whose loop stops at a line that does not parse, a command that throws and `quit`, follows `BridgeModel.HandleChunk` and keeps the invariant |
| SupervisorModel.Merge | main.js:33 | `Object.assign`: the keys are the union; a patched field takes the patch's value; every other field keeps its value |
| SupervisorModel.UpdateStatus | main.js:32-37 | only the snapshot changes (worker handle, next worker identity and timers stay); it becomes the merge, and the whole merged snapshot is pushed |
| SupervisorModel.InitialStatusDefaults | main.js:11-19 | the seed has exactly the seven fields: `tosConnected` and `serverRunning` false, `clientCount` and `subscriptionCount` 0, `wsUrl` and `localIP` null, `port` 8765 |
| SupervisorModel.UpdatesAccumulate | main.js:32-33 | `{clientCount: 2}` then `{port: 8765}` leaves both set and every other default in place |
| SupervisorModel.UpdateIdempotent | main.js:33 | the same update applied twice gives the same state as once |
| SupervisorModel.DispatchLine | main.js:68-82 | a worker line never touches the worker handle or the timers |
| SupervisorModel.LogRecordRelayed | main.js:71-72 | a `log` record becomes one log line with its message, at its `logType`, or at the `log` function's default `info` when it has none, and changes no state |
| SupervisorModel.StatusRecordMergedWhole | main.js:73-74 | a `status` record is merged whole, `type` included; every field it carries is overwritten; every other field is kept; the snapshot is pushed |
| SupervisorModel.OnlyLogAndStatusAct | main.js:68-81 | any other record changes nothing; only lines that are not JSON, or are JSON `null`, can reach the console |
| SupervisorModel.NonJsonLine | main.js:76-81 | a line that is not JSON changes nothing and reaches the console exactly when it is not blank |
| SupervisorModel.NotJson | main.js:76-81 | the `catch` branch changes no state and writes only `[Worker] line` to the console, exactly when the line is not blank |
| SupervisorModel.Start | main.js:40-60 | after a start there is a worker; the snapshot and the timers stay |
| SupervisorModel.StartAtMostOnce | main.js:40-43 | with a worker present, a start does nothing; without one, it spawns exactly one fresh worker; a second start then does nothing |
| SupervisorModel.OnClose | main.js:91-99 | after `close` there is no worker, and the timers stay |
| SupervisorModel.CloseResets | main.js:91-99 | `close` clears the worker; it resets `tosConnected`, `serverRunning` and `clientCount` and keeps every other field; it logs at `info` exactly for exit code 0, then pushes the snapshot |
| SupervisorModel.OnError | main.js:101-104 | after `error` there is no worker |
| SupervisorModel.ErrorClears | main.js:101-104 | `error` clears the worker and changes neither the snapshot nor the timers; it logs one error and pushes no status |
| SupervisorModel.OnStderr | main.js:84-89 | stderr changes no state |
| SupervisorModel.StderrLogged | main.js:84-89 | a stderr chunk is logged as an error, trimmed, exactly when it is not blank |
| SupervisorModel.StdinClosed | main.js:109 | a closed stdin makes the current worker unwritable; the worker's identity, the snapshot, the timers and the identity counter stay; nothing happens outside |
| SupervisorModel.Send | main.js:108-112 | sending never changes the state |
| SupervisorModel.SendOnlyWhenWritable | main.js:108-112 | a command goes out, as exactly one record to the current worker, exactly when a worker exists and its stdin is writable |
| SupervisorModel.NoWriteAfterStdinClosed | main.js:108-112 | once the worker's stdin has closed, `sendToBridge` writes nothing |
| SupervisorModel.Command | main.js:117 | a command record has the one field `type` |
| SupervisorModel.Stop | main.js:115-125 | stopping changes neither the snapshot nor the worker handle |
| SupervisorModel.StopArmsTimer | main.js:115-125 | without a worker, stop does nothing; with one, it sends `quit` if the stdin is writable, and arms a timer for that worker |
| SupervisorModel.KillTimeout | main.js:118-123 | when the timer as written fires, there is no worker afterwards |
| SupervisorModel.KillTimeoutKillsCurrent | main.js:118-123 | the timer as written kills whichever worker is current, if there is one |
| SupervisorModel.OwnKillTimeout | main.js:118-123 | the corrected timer consumes its own timer and keeps the snapshot |
| SupervisorModel.OwnKillTimeoutKillsOnlyItsWorker | main.js:118-123 | the corrected timer kills only the worker it was armed for and keeps any later worker |
| SupervisorModel.StartDelay | main.js:222 | the restart timer leaves a worker present |
| SupervisorModel.GetStatus | main.js:211-213 | `get-status` answers the current snapshot |
| SupervisorModel.ConnectTos | main.js:215-218 | `connect-tos` changes no state and sends `{type: 'connect-tos'}` as `sendToBridge` does |
| SupervisorModel.Restart | main.js:220-224 | `restart-bridge` arms one restart timer and keeps the worker and the snapshot; its effects and kill timers are those of `Stop`: with a worker, one kill timer for it; without, nothing |
| SupervisorModel.GetSubscriptions | main.js:226-228 | `get-subscriptions` answers the empty list |
| SupervisorModel.RestartAsWrittenLeavesNoWorker | main.js:220-224 | as written, a restart of a running worker that closes on `quit` spawns a new worker; the kill timer then kills it, leaving no worker |
| SupervisorModel.RestartCorrectedKeepsNewWorker | main.js:220-224 | with the corrected timer, the same restart ends with the new worker running and no timer pending |
| MainProcess.Supervisor.constructor | main.js:10-19 | the process starts with the default snapshot, no worker and no timers |
| MainProcess.Supervisor.UpdateStatus | main.js:32-37 | `updateStatus` follows `SupervisorModel.UpdateStatus` |
| MainProcess.Supervisor.StartBridgeWorker | main.js:40-60 | `startBridgeWorker` follows `SupervisorModel.Start` |
| MainProcess.Supervisor.OnLine | main.js:68-82 | the `line` callback follows `SupervisorModel.DispatchLine` |
| MainProcess.Supervisor.OnStderr | main.js:84-89 | the stderr callback follows `SupervisorModel.OnStderr` |
| MainProcess.Supervisor.OnClose | main.js:91-99 | the `close` callback follows `SupervisorModel.OnClose` |
| MainProcess.Supervisor.OnError | main.js:101-104 | the `error` callback follows `SupervisorModel.OnError` |
| MainProcess.Supervisor.OnStdinClosed | main.js:109 | the worker's stdin becomes unwritable |
| MainProcess.Supervisor.SendToBridge | main.js:108-112 | `sendToBridge` follows `SupervisorModel.Send` |
| MainProcess.Supervisor.StopBridgeWorker | main.js:115-125 | `stopBridgeWorker` follows `SupervisorModel.Stop` |
| MainProcess.Supervisor.OnKillTimeout | main.js:118-123 | the 1000 ms timer as written follows `SupervisorModel.KillTimeout` |
| MainProcess.Supervisor.OnOwnKillTimeout | main.js:118-123 | the corrected 1000 ms timer follows `SupervisorModel.OwnKillTimeout` |
| MainProcess.Supervisor.OnRestartDelay | main.js:222 | the 500 ms timer follows `SupervisorModel.StartDelay` |
| MainProcess.Supervisor.GetStatus | main.js:211-213 | answers the current snapshot |
| MainProcess.Supervisor.ConnectTos | main.js:215-218 | answers `true` and only forwards `connect-tos` |
| MainProcess.Supervisor.RestartBridge | main.js:220-224 | answers `true`, and follows `SupervisorModel.Restart` |
| MainProcess.Supervisor.GetSubscriptions | main.js:226-228 | answers the empty list |
| Protocol.RecordJson | bridge-worker.js:20-27 | a log record becomes an object with exactly `type: log`, its message, its level and the time stamp; a status record keeps every field it carries and gains `type`, which is `status` unless it carried its own |
| Protocol.LogRecordsRelayed | main.js:71-72 | a worker log line becomes one supervisor log line with the same text and level, and changes no state |
| Protocol.StatusRecordsMerged | main.js:73-74 | a worker status record sets every field it carries to the reported value; `type` becomes `status`; every other field is kept |
| Protocol.ReportedCountsReachSnapshot | bridge-worker.js:261-267 | once the supervisor reads the `get-status` answer, its snapshot holds the worker's client-set size, registry size, provider flag and listener flag |
| Protocol.WorkerRecordsReachSupervisor | bridge-worker.js:20-27 | no status record of the worker carries its own `type`, so each record is tagged `log` or `status`; the supervisor relays each log record as one log line with its text and level, and merges each status record and shows the snapshot |

## Left out

- `getLocalIP` (bridge-worker.js:30-40) enumerates network interfaces; the local address is a parameter.
- `initializeRTD` loading `winax` and creating the COM object: only its three outcomes are modelled, as a parameter.
- `initializeRTD`'s catch reads `error.message`: an error value without a `message` makes that check throw out of the handler; `RtdError` always carries a message text, so that case is not modelled.
- `getQuote` calling into the COM object is an oracle. `parseFloat` and `parseInt` of strings the provider might return are folded into that oracle. `parseInt` of a number whose text is in exponent form is not modelled.
- Floating-point arithmetic: quote readings are reals.
- `Date.now()` and `toLocaleTimeString()`: a tick carries one time value, although the code reads the clock for each quote. The worker's own log records leave out their time stamp, except where `Protocol.RecordJson` adds it.
- The WebSocket server is only the `wss !== null` flag. Left out: closing and recreating it, the host binding, and a port that is not a number.
- A `start-server` whose port `listen` rejects first closes the listener already running (bridge-worker.js:142-144), and `wss` still refers to that closed listener. The model only records that nothing is written and the flag stays as it was.
- A `subscribe` whose `expiration` is missing or not a string makes `split` throw. The `catch` of the `message` handler (bridge-worker.js:177-179) then logs it as invalid. The model receives such a message already as `Malformed`, so the caller decides which messages are malformed.
- A missing `strike` or `optionType` is interpolated as the text `undefined`. The model takes every field as the string it renders to.
- `Env` fixes one RTD outcome for a whole read, so several `connect-tos` commands in one read all see the same outcome.
- After `process.exit` (the `exited` flag) the model still accepts events. The real process receives none.
- Without: its own contract does not state that the remaining elements keep their order. `BridgeModel.WithoutKeepsOrder` proves that for the duplicate-free sequences the model keeps.
- DropBlank: its own contract states membership only. `Text.DropBlankAppend` proves that order and repetitions are kept.
- CommandLines: its own contract states only the shape of the lines. `BridgeModel.CommandLinesOfJoin` proves which lines they are, in order.
- PollQueries: its own contract states only the number of lookups. `BridgeModel.PollQueriesCover` proves which lookups they are.
- JavaScript strings are sequences of UTF-16 code units, so `slice` and `trim` count code units. A Dafny `char` is a code point, so text outside the Basic Multilingual Plane is not measured as JavaScript measures it.
- `JSON.stringify` and `JSON.parse` are not modelled. Messages, commands and parsed lines are given already parsed, with a case for a failed parse.
- `setInterval(pollAndBroadcast, 500)` is also left out, including the fact that every `start-server` adds one more interval. Each tick is an explicit call.
- `process.exit(0)` is the `exited` flag; stdout flushing is left out.
- The SIGINT handler (bridge-worker.js:285-288) is not part of the core.
- `spawn`, `kill`, the environment of the child and `readline` buffering (main.js:45-66) are left out. A spawn is an identity, and the supervisor receives whole lines.
- The writability of the worker's stdin is a flag. The stream event that clears it is `StdinClosed`.
- `log` and `updateStatus` only send to the window when it exists (main.js:26, 34); the model always records the push.
- Window creation, the tray, quit handling and `before-quit` (main.js:128-246, except the IPC handlers) are not part of the core. Neither are renderer.js, preload.js and auto-updater.js.
- A `close` or `error` event is not tied to the process that raised it: as in the code, any such event clears the current handle.

## Findings

| source | as written | input that shows it | evidently intended | confidence | as-written member | corrected member |
|---|---|---|---|---|---|---|
| main.js:118-123 | the 1000 ms timer of `stopBridgeWorker` kills `bridgeProcess`, whichever worker that is when the timer fires | `restart-bridge` while a worker runs. The worker obeys `quit` and closes within 500 ms. The 500 ms timer (main.js:222) spawns a new worker. The 1000 ms timer then kills the new worker, so no worker is left | the timer kills only the worker it was armed for, so the restart leaves the new worker running | medium, not executed | SupervisorModel.RestartAsWrittenLeavesNoWorker | SupervisorModel.RestartCorrectedKeepsNewWorker |

`SupervisorModel.KillTimeout` and `MainProcess.Supervisor.OnKillTimeout`
model the timer as written. `SupervisorModel.OwnKillTimeout` and
`MainProcess.Supervisor.OnOwnKillTimeout` are the correction.

The correction covers the order above, where the old worker closes before
the 500 ms timer fires. If the old worker is still alive at 500 ms, the
start is a no-op, and a restart still ends without a worker, corrected or
not.
