/**
 * The supervisor (main.js) as a state machine: the status snapshot the
 * window is shown, the handle of the one bridge worker it runs, and the
 * timers that stop and restart it. Each event is a function from the state
 * to the next state and the effects it has; the class in MainProcess is
 * proved to follow these functions.
 */
module SupervisorModel {
  import opened Wrappers
  import opened Text
  import opened Json

  /** `currentStatus`: a plain object, field name to value. */
  type Snapshot = map<string, Json>

  /** The defaults `currentStatus` is seeded with. */
  const InitialStatus: Snapshot := map[
    "tosConnected" := JBool(false), "serverRunning" := JBool(false),
    "clientCount" := JNum(0), "subscriptionCount" := JNum(0),
    "wsUrl" := JNull, "port" := JNum(8765), "localIP" := JNull]

  /** `Object.assign(current, patch)`: every field of the patch overwrites, every other field stays. */
  function Merge(current: Snapshot, patch: Snapshot): (r: Snapshot)
    ensures r.Keys == current.Keys + patch.Keys
    ensures forall k :: k in patch ==> r[k] == patch[k]
    ensures forall k :: k in current && k !in patch ==> r[k] == current[k]
  {
    current + patch
  }

  /** The fields the `close` handler resets. */
  const ExitReset: Snapshot := map[
    "tosConnected" := JBool(false), "serverRunning" := JBool(false), "clientCount" := JNum(0)]

  /** What the supervisor does that is visible outside it. */
  datatype Effect =
    | Logged(message: Option<Json>, level: Json)  // `log(message, type)`: console and window; `None` is `undefined`
    | Console(text: string)                       // `console.log` only
    | StatusSent(snapshot: Snapshot)              // the window's `status` event
    | Spawned(id: nat)                            // `spawn('node', [workerPath], ...)`
    | Wrote(id: nat, record: Json)                // one JSON record and `'\n'` on the worker's stdin
    | Killed(id: nat)                             // `bridgeProcess.kill()`

  /** A log line of the supervisor's own, with a literal text and level. */
  function Say(text: string, level: string): Effect {
    Logged(Some(JStr(text)), JStr(level))
  }

  /** A spawned worker: its identity and whether its stdin is still writable. */
  datatype Proc = Proc(id: nat, writable: bool)

  /**
   * The supervisor's state: `currentStatus`, `bridgeProcess`, the identity
   * the next spawn gets, the workers that armed 1000 ms kill timers (oldest
   * first), and the number of pending 500 ms restart timers.
   */
  datatype State = State(status: Snapshot, worker: Option<Proc>, nextId: nat, kills: seq<nat>, starts: nat)

  datatype Transition = Transition(next: State, effects: seq<Effect>)

  /** Every identity in the state belongs to a worker spawned already. */
  predicate Valid(s: State) {
    && (s.worker.Some? ==> s.worker.value.id < s.nextId)
    && (forall i :: 0 <= i < |s.kills| ==> s.kills[i] < s.nextId)
  }

  /** At application start, before `startBridgeWorker()`. */
  const Initial: State := State(InitialStatus, None, 0, [], 0)

  // ---------------------------------------------------------------- status

  /** `updateStatus(patch)`: merge, then show the whole snapshot. */
  function UpdateStatus(s: State, patch: Snapshot): (t: Transition)
    ensures t.next.worker == s.worker && t.next.kills == s.kills && t.next.starts == s.starts
    ensures t.next.nextId == s.nextId
    ensures t.next.status == Merge(s.status, patch)
    ensures t.effects == [StatusSent(t.next.status)]
    ensures Valid(s) ==> Valid(t.next)
  {
    var merged := Merge(s.status, patch);
    Transition(s.(status := merged), [StatusSent(merged)])
  }

  /** The seed has the seven documented defaults and nothing else. */
  lemma InitialStatusDefaults()
    ensures InitialStatus.Keys == {"tosConnected", "serverRunning", "clientCount", "subscriptionCount",
                                   "wsUrl", "port", "localIP"}
    ensures InitialStatus["tosConnected"] == JBool(false) && InitialStatus["serverRunning"] == JBool(false)
    ensures InitialStatus["clientCount"] == JNum(0) && InitialStatus["subscriptionCount"] == JNum(0)
    ensures InitialStatus["port"] == JNum(8765) && InitialStatus["wsUrl"] == JNull
    ensures InitialStatus["localIP"] == JNull
    ensures Valid(Initial)
  {
  }

  /** Two updates with different fields both stay in effect. */
  lemma UpdatesAccumulate(s: State)
    requires s.status == InitialStatus
    ensures var t := UpdateStatus(UpdateStatus(s, map["clientCount" := JNum(2)]).next, map["port" := JNum(8765)]);
      && t.next.status["clientCount"] == JNum(2) && t.next.status["port"] == JNum(8765)
      && t.next.status.Keys == InitialStatus.Keys
      && (forall k :: k in InitialStatus && k != "clientCount" ==> t.next.status[k] == InitialStatus[k])
  {
    var first := UpdateStatus(s, map["clientCount" := JNum(2)]).next;
    assert first.status["clientCount"] == JNum(2);
    assert "clientCount" != "port";
  }

  /** Applying the same update twice is the same as applying it once. */
  lemma {:induction false} UpdateIdempotent(s: State, patch: Snapshot)
    ensures UpdateStatus(UpdateStatus(s, patch).next, patch).next == UpdateStatus(s, patch).next
  {
    var once := Merge(s.status, patch);
    var twice := Merge(once, patch);
    assert twice.Keys == once.Keys;
    assert forall k :: k in once ==> twice[k] == once[k];
  }

  // ------------------------------------------------------------ line dispatch

  /**
   * The `line` handler: `parsed` is what `JSON.parse(line)` gives, `None`
   * when it throws. A `log` record is relayed, a `status` record is merged
   * whole, any other value is ignored; a line that does not parse, or that
   * parses to `null` (whose `.type` throws), only reaches the console, and
   * only when it is not blank.
   */
  function DispatchLine(s: State, line: string, parsed: Option<Json>): (t: Transition)
    ensures t.next.worker == s.worker && t.next.kills == s.kills && t.next.starts == s.starts
    ensures Valid(s) ==> Valid(t.next)
  {
    match parsed
    case None => NotJson(s, line)
    case Some(JNull) => NotJson(s, line)
    case Some(JObj(f)) =>
      if "type" in f && f["type"] == JStr("log") then
        Transition(s, [Logged(if "message" in f then Some(f["message"]) else None,
                              if "logType" in f then f["logType"] else JStr("info"))])
      else if "type" in f && f["type"] == JStr("status") then
        UpdateStatus(s, f)
      else Transition(s, [])
    case Some(_) => Transition(s, [])
  }

  /** The `catch` branch of the `line` handler: console only, and never a blank line. */
  function NotJson(s: State, line: string): (t: Transition)
    ensures t.next == s
    ensures t.effects == [] <==> IsBlank(line)
    ensures forall e :: e in t.effects ==> e == Console("[Worker] " + line)
  {
    Transition(s, if IsBlank(line) then [] else [Console("[Worker] " + line)])
  }

  /** A `log` record becomes one log line, at its own level or at `info` when it has none. */
  lemma LogRecordRelayed(s: State, line: string, f: Snapshot)
    requires "type" in f && f["type"] == JStr("log")
    ensures var t := DispatchLine(s, line, Some(JObj(f)));
      && t.next == s
      && t.effects == [Logged(if "message" in f then Some(f["message"]) else None,
                              if "logType" in f then f["logType"] else JStr("info"))]
  {
  }

  /** A `status` record is merged whole, its `type` field included, and the result shown. */
  lemma StatusRecordMergedWhole(s: State, line: string, f: Snapshot)
    requires "type" in f && f["type"] == JStr("status")
    ensures var t := DispatchLine(s, line, Some(JObj(f)));
      && t.next.status == Merge(s.status, f)
      && t.next.status["type"] == JStr("status")
      && (forall k :: k in f ==> t.next.status[k] == f[k])
      && (forall k :: k in s.status && k !in f ==> t.next.status[k] == s.status[k])
      && t.effects == [StatusSent(t.next.status)]
  {
  }

  /**
   * Only records of type `log` or `status` have an effect on the status or
   * the window; a line that is no JSON object at all can only reach the
   * console.
   */
  lemma OnlyLogAndStatusAct(s: State, line: string, parsed: Option<Json>)
    requires !(parsed.Some? && parsed.value.JObj? && "type" in parsed.value.fields
               && parsed.value.fields["type"] in {JStr("log"), JStr("status")})
    ensures var t := DispatchLine(s, line, parsed);
      && t.next == s
      && (forall e :: e in t.effects ==> e == Console("[Worker] " + line))
      && (t.effects != [] ==> parsed.None? || parsed == Some(JNull))
  {
    match parsed
    case None =>
    case Some(j) =>
      if j.JObj? && "type" in j.fields {
        assert j.fields["type"] != JStr("log") && j.fields["type"] != JStr("status");
      }
  }

  /** A line that is not JSON is printed to the console exactly when it is not blank. */
  lemma NonJsonLine(s: State, line: string)
    ensures var t := DispatchLine(s, line, None);
      && t.next == s
      && (t.effects == [] <==> IsBlank(line))
      && (!IsBlank(line) ==> t.effects == [Console("[Worker] " + line)])
  {
  }

  // --------------------------------------------------------- worker lifecycle

  /** `startBridgeWorker()`: spawn and log, unless a worker is already there. */
  function Start(s: State): (t: Transition)
    ensures t.next.status == s.status && t.next.kills == s.kills && t.next.starts == s.starts
    ensures t.next.worker.Some?
    ensures Valid(s) ==> Valid(t.next)
  {
    if s.worker.Some? then Transition(s, [])
    else
      Transition(s.(worker := Some(Proc(s.nextId, true)), nextId := s.nextId + 1),
                 [Spawned(s.nextId), Say("Starting bridge worker...", "info")])
  }

  /**
   * There is never a second handle: with one present, starting does nothing;
   * without one, it spawns exactly one fresh worker, and starting again then
   * does nothing.
   */
  lemma StartAtMostOnce(s: State)
    requires Valid(s)
    ensures s.worker.Some? ==> Start(s) == Transition(s, [])
    ensures s.worker.None? ==>
      && Start(s).next.worker == Some(Proc(s.nextId, true))
      && (forall i :: 0 <= i < |s.kills| ==> s.kills[i] != s.nextId)
      && (forall e :: e in Start(s).effects && e.Spawned? ==> e.id == s.nextId)
    ensures Start(Start(s).next) == Transition(Start(s).next, [])
  {
  }

  /** The rendering of the exit code: `null` when the worker was killed by a signal. */
  function CodeText(code: Option<int>): string {
    if code.Some? then IntToString(code.value) else "null"
  }

  /** The worker's `close` event. */
  function OnClose(s: State, code: Option<int>): (t: Transition)
    ensures t.next.worker.None? && t.next.kills == s.kills && t.next.starts == s.starts
    ensures Valid(s) ==> Valid(t.next)
  {
    var said := Say("Bridge worker exited with code " + CodeText(code), if code == Some(0) then "info" else "error");
    var reset := UpdateStatus(s.(worker := None), ExitReset);
    Transition(reset.next, [said] + reset.effects)
  }

  /**
   * After the worker closes there is no worker; the connection flags and
   * the client count are reset and every other field of the snapshot is
   * kept; the log line is `info` exactly for exit code 0.
   */
  lemma CloseResets(s: State, code: Option<int>)
    ensures var t := OnClose(s, code);
      && t.next.worker.None?
      && t.next.status["tosConnected"] == JBool(false)
      && t.next.status["serverRunning"] == JBool(false)
      && t.next.status["clientCount"] == JNum(0)
      && (forall k :: k in s.status && k !in ExitReset.Keys ==> t.next.status[k] == s.status[k])
      && t.next.status.Keys == s.status.Keys + ExitReset.Keys
      && t.effects[0].Logged? && (t.effects[0].level == JStr("info") <==> code == Some(0))
      && t.effects[1..] == [StatusSent(t.next.status)]
  {
    assert JStr("error") != JStr("info");
  }

  /** The worker's `error` event. */
  function OnError(s: State, message: string): (t: Transition)
    ensures t.next.worker.None?
    ensures Valid(s) ==> Valid(t.next)
  {
    Transition(s.(worker := None), [Say("Failed to start bridge worker: " + message, "error")])
  }

  /** An `error` clears the worker and leaves the snapshot and the timers as they were. */
  lemma ErrorClears(s: State, message: string)
    ensures var t := OnError(s, message);
      && t.next == s.(worker := None)
      && |t.effects| == 1 && t.effects[0].Logged? && t.effects[0].level == JStr("error")
      && (forall e :: e in t.effects ==> !e.StatusSent?)
  {
  }

  /** The worker's stderr: one `error` log line per chunk that is not blank. */
  function OnStderr(s: State, data: string): (t: Transition)
    ensures t.next == s
  {
    var text := Trim(data);
    Transition(s, if text != [] then [Say("Worker error: " + text, "error")] else [])
  }

  /** A blank stderr chunk is dropped; any other one is logged, trimmed. */
  lemma StderrLogged(s: State, data: string)
    ensures OnStderr(s, data).effects == [] <==> IsBlank(data)
    ensures !IsBlank(data) ==> OnStderr(s, data).effects == [Say("Worker error: " + Trim(data), "error")]
  {
  }

  /** The worker's stdin stops accepting writes. */
  function StdinClosed(s: State): (t: Transition)
    ensures t.next.status == s.status && t.effects == []
    ensures t.next.worker == (if s.worker.Some? then Some(s.worker.value.(writable := false)) else None)
    ensures t.next.nextId == s.nextId && t.next.kills == s.kills && t.next.starts == s.starts
    ensures Valid(s) ==> Valid(t.next)
  {
    match s.worker
    case None => Transition(s, [])
    case Some(p) => Transition(s.(worker := Some(p.(writable := false))), [])
  }

  // ------------------------------------------------------------ commands

  /** `sendToBridge(command)`. */
  function Send(s: State, command: Json): (t: Transition)
    ensures t.next == s
  {
    if s.worker.Some? && s.worker.value.writable then Transition(s, [Wrote(s.worker.value.id, command)])
    else Transition(s, [])
  }

  /** A command goes out as exactly one record, to the current worker, and only when its stdin is writable. */
  lemma SendOnlyWhenWritable(s: State, command: Json)
    ensures (Send(s, command).effects != []) <==> (s.worker.Some? && s.worker.value.writable)
    ensures Send(s, command).effects != [] ==> Send(s, command).effects == [Wrote(s.worker.value.id, command)]
  {
  }

  /** Once the worker's stdin has closed, no command reaches it until a new worker is spawned. */
  lemma NoWriteAfterStdinClosed(s: State, command: Json)
    ensures Send(StdinClosed(s).next, command).effects == []
  {
  }

  /** `{ type: 'quit' }` and `{ type: 'connect-tos' }`. */
  function Command(tag: string): (j: Json)
    ensures j.JObj? && j.fields.Keys == {"type"} && j.fields["type"] == JStr(tag)
  {
    JObj(map["type" := JStr(tag)])
  }

  /** `stopBridgeWorker()`: ask the worker to quit, and arm the 1000 ms kill timer. */
  function Stop(s: State): (t: Transition)
    ensures t.next.status == s.status && t.next.worker == s.worker && t.next.starts == s.starts
    ensures Valid(s) ==> Valid(t.next)
  {
    match s.worker
    case None => Transition(s, [])
    case Some(p) =>
      Transition(s.(kills := s.kills + [p.id]), Send(s, Command("quit")).effects)
  }

  /** Without a worker, stopping does nothing; with one, it sends `quit` if it can and always arms a timer for that worker. */
  lemma StopArmsTimer(s: State)
    ensures s.worker.None? ==> Stop(s) == Transition(s, [])
    ensures s.worker.Some? ==>
      && Stop(s).next.kills == s.kills + [s.worker.value.id]
      && Stop(s).effects == (if s.worker.value.writable then [Wrote(s.worker.value.id, Command("quit"))] else [])
  {
  }

  /**
   * The 1000 ms timer as written: it kills and clears whatever worker is
   * current when it fires, whichever worker armed it.
   */
  function KillTimeout(s: State): (t: Transition)
    requires s.kills != []
    ensures t.next.kills == s.kills[1..] && t.next.worker.None? && t.next.status == s.status
    ensures Valid(s) ==> Valid(t.next)
  {
    var s' := s.(kills := s.kills[1..]);
    match s.worker
    case None => Transition(s', [])
    case Some(p) => Transition(s'.(worker := None), [Killed(p.id)])
  }

  /**
   * The 1000 ms timer as intended: it kills the worker that armed it, if that
   * worker is still the current one, and leaves any later worker alone.
   */
  function OwnKillTimeout(s: State): (t: Transition)
    requires s.kills != []
    ensures t.next.kills == s.kills[1..] && t.next.status == s.status
    ensures Valid(s) ==> Valid(t.next)
  {
    var s' := s.(kills := s.kills[1..]);
    if s.worker.Some? && s.worker.value.id == s.kills[0] then
      Transition(s'.(worker := None), [Killed(s.kills[0])])
    else Transition(s', [])
  }

  /** The timer as written kills exactly the current worker, if there is one. */
  lemma KillTimeoutKillsCurrent(s: State)
    requires s.kills != []
    ensures KillTimeout(s).effects == (if s.worker.Some? then [Killed(s.worker.value.id)] else [])
  {
  }

  /** The corrected timer kills only the worker it was armed for and keeps any other one. */
  lemma OwnKillTimeoutKillsOnlyItsWorker(s: State)
    requires s.kills != []
    ensures forall e :: e in OwnKillTimeout(s).effects ==> e == Killed(s.kills[0])
    ensures s.worker.Some? && s.worker.value.id != s.kills[0] ==> OwnKillTimeout(s).next.worker == s.worker
  {
  }

  /** The 500 ms restart timer: `startBridgeWorker()`. */
  function StartDelay(s: State): (t: Transition)
    requires s.starts > 0
    ensures t.next.starts == s.starts - 1 && t.next.worker.Some?
    ensures Valid(s) ==> Valid(t.next)
  {
    Start(s.(starts := s.starts - 1))
  }

  // ----------------------------------------------------------- IPC handlers

  /** `get-status`: the current snapshot. */
  function GetStatus(s: State): (r: Snapshot)
    ensures r.Keys == s.status.Keys && forall k :: k in r ==> r[k] == s.status[k]
  {
    s.status
  }

  /** `connect-tos`: forward the command to the worker; the handler answers `true`. */
  function ConnectTos(s: State): (t: Transition)
    ensures t.next == s
    ensures t.effects == Send(s, Command("connect-tos")).effects
  {
    Send(s, Command("connect-tos"))
  }

  /** `restart-bridge`: stop, and arm the 500 ms restart timer; the handler answers `true`. */
  function Restart(s: State): (t: Transition)
    ensures t.next.starts == s.starts + 1 && t.next.worker == s.worker && t.next.status == s.status
    ensures t.effects == Stop(s).effects && t.next.kills == Stop(s).next.kills
    ensures s.worker.None? ==> t.effects == [] && t.next.kills == s.kills
    ensures s.worker.Some? ==> t.next.kills == s.kills + [s.worker.value.id]
    ensures Valid(s) ==> Valid(t.next)
  {
    var stop := Stop(s);
    Transition(stop.next.(starts := stop.next.starts + 1), stop.effects)
  }

  /** `get-subscriptions`: always the empty list, since the worker keeps the registry. */
  function GetSubscriptions(s: State): (r: seq<Json>)
    ensures r == []
  {
    []
  }

  // ------------------------------------------------------------ restart

  /** As written, a restart of a running worker ends with no worker: the timer kills the new one. */
  lemma RestartAsWrittenLeavesNoWorker(s: State, code: Option<int>)
    requires Valid(s) && s.worker.Some? && s.kills == [] && s.starts == 0
    ensures var stopped := Restart(s).next;
      var restarted := StartDelay(OnClose(stopped, code).next).next;
      && restarted.worker == Some(Proc(s.nextId, true))
      && KillTimeout(restarted).effects == [Killed(s.nextId)]
      && KillTimeout(restarted).next.worker.None?
  {
  }

  /** With the corrected timer, the same restart ends with the new worker running. */
  lemma RestartCorrectedKeepsNewWorker(s: State, code: Option<int>)
    requires Valid(s) && s.worker.Some? && s.kills == [] && s.starts == 0
    ensures var stopped := Restart(s).next;
      var restarted := StartDelay(OnClose(stopped, code).next).next;
      && OwnKillTimeout(restarted).effects == []
      && OwnKillTimeout(restarted).next.worker == Some(Proc(s.nextId, true))
      && OwnKillTimeout(restarted).next.kills == []
  {
    var stopped := Restart(s).next;
    assert stopped.kills == [s.worker.value.id];
  }
}
