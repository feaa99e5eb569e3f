/**
 * The supervisor (main.js) as the program runs it: `currentStatus` and
 * `bridgeProcess` are module-level variables that the event callbacks
 * overwrite. Each callback is a method proved to follow the matching
 * function of SupervisorModel.
 */
module MainProcess {
  import opened Wrappers
  import opened Text
  import opened Json
  import opened SupervisorModel

  class Supervisor {
    /** `currentStatus` */
    var status: Snapshot
    /** `bridgeProcess` */
    var worker: Option<Proc>
    /** The identity the next spawned worker gets. */
    var nextId: nat
    /** The workers that armed a pending 1000 ms kill timer, oldest first. */
    var kills: seq<nat>
    /** The number of pending 500 ms restart timers. */
    var starts: nat
    /** Everything the supervisor has done that is visible outside it. */
    var effects: seq<Effect>

    function Model(): State
      reads this
    {
      State(status, worker, nextId, kills, starts)
    }

    predicate Valid()
      reads this
    {
      SupervisorModel.Valid(Model())
    }

    /** Module initialisation: the default snapshot and no worker. */
    constructor ()
      ensures Valid() && Model() == Initial && effects == []
    {
      status := InitialStatus;
      worker := None;
      nextId := 0;
      kills := [];
      starts := 0;
      effects := [];
    }

    /** `updateStatus(patch)`. */
    method UpdateStatus(patch: Snapshot)
      requires Valid()
      modifies this
      ensures Valid()
      ensures Model() == SupervisorModel.UpdateStatus(old(Model()), patch).next
      ensures effects == old(effects) + SupervisorModel.UpdateStatus(old(Model()), patch).effects
    {
      status := status + patch;
      effects := effects + [StatusSent(status)];
    }

    /** `startBridgeWorker()`, up to the registration of the callbacks. */
    method StartBridgeWorker()
      requires Valid()
      modifies this
      ensures Valid()
      ensures Model() == Start(old(Model())).next
      ensures effects == old(effects) + Start(old(Model())).effects
    {
      if worker.Some? {
        return;
      }
      worker := Some(Proc(nextId, true));
      effects := effects + [Spawned(nextId), Say("Starting bridge worker...", "info")];
      nextId := nextId + 1;
    }

    /** The `line` callback, given the line and what `JSON.parse` made of it. */
    method OnLine(line: string, parsed: Option<Json>)
      requires Valid()
      modifies this
      ensures Valid()
      ensures Model() == DispatchLine(old(Model()), line, parsed).next
      ensures effects == old(effects) + DispatchLine(old(Model()), line, parsed).effects
    {
      if parsed.None? || parsed.value.JNull? {
        if !IsBlank(line) {
          effects := effects + [Console("[Worker] " + line)];
        }
        return;
      }
      match parsed.value
      case JObj(f) =>
        if "type" in f && f["type"] == JStr("log") {
          var message := if "message" in f then Some(f["message"]) else None;
          var level := if "logType" in f then f["logType"] else JStr("info");
          effects := effects + [Logged(message, level)];
        } else if "type" in f && f["type"] == JStr("status") {
          UpdateStatus(f);
        }
      case _ =>
    }

    /** The stderr `data` callback. */
    method OnStderr(data: string)
      requires Valid()
      modifies this
      ensures Valid()
      ensures Model() == old(Model())
      ensures effects == old(effects) + SupervisorModel.OnStderr(old(Model()), data).effects
    {
      var text := Trim(data);
      if text != [] {
        effects := effects + [Say("Worker error: " + text, "error")];
      }
    }

    /** The worker's `close` callback. */
    method OnClose(code: Option<int>)
      requires Valid()
      modifies this
      ensures Valid()
      ensures Model() == SupervisorModel.OnClose(old(Model()), code).next
      ensures effects == old(effects) + SupervisorModel.OnClose(old(Model()), code).effects
    {
      effects := effects + [Say("Bridge worker exited with code " + CodeText(code),
                                if code == Some(0) then "info" else "error")];
      worker := None;
      UpdateStatus(ExitReset);
    }

    /** The worker's `error` callback. */
    method OnError(message: string)
      requires Valid()
      modifies this
      ensures Valid()
      ensures Model() == SupervisorModel.OnError(old(Model()), message).next
      ensures effects == old(effects) + SupervisorModel.OnError(old(Model()), message).effects
    {
      effects := effects + [Say("Failed to start bridge worker: " + message, "error")];
      worker := None;
    }

    /** The worker's stdin stops accepting writes. */
    method OnStdinClosed()
      requires Valid()
      modifies this
      ensures Valid()
      ensures Model() == StdinClosed(old(Model())).next && effects == old(effects)
    {
      if worker.Some? {
        worker := Some(worker.value.(writable := false));
      }
    }

    /** `sendToBridge(command)`. */
    method SendToBridge(command: Json)
      modifies this
      ensures Model() == old(Model())
      ensures effects == old(effects) + Send(old(Model()), command).effects
    {
      if worker.Some? && worker.value.writable {
        effects := effects + [Wrote(worker.value.id, command)];
      }
    }

    /** `stopBridgeWorker()`: the `quit` command and the 1000 ms timer. */
    method StopBridgeWorker()
      requires Valid()
      modifies this
      ensures Valid()
      ensures Model() == Stop(old(Model())).next
      ensures effects == old(effects) + Stop(old(Model())).effects
    {
      if worker.Some? {
        SendToBridge(Command("quit"));
        kills := kills + [worker.value.id];
      }
    }

    /** The 1000 ms timer of `stopBridgeWorker`, as written. */
    method OnKillTimeout()
      requires Valid() && kills != []
      modifies this
      ensures Valid()
      ensures Model() == KillTimeout(old(Model())).next
      ensures effects == old(effects) + KillTimeout(old(Model())).effects
    {
      kills := kills[1..];
      if worker.Some? {
        effects := effects + [Killed(worker.value.id)];
        worker := None;
      }
    }

    /** The 1000 ms timer with the correction: only the worker that armed it is killed. */
    method OnOwnKillTimeout()
      requires Valid() && kills != []
      modifies this
      ensures Valid()
      ensures Model() == OwnKillTimeout(old(Model())).next
      ensures effects == old(effects) + OwnKillTimeout(old(Model())).effects
    {
      var armedFor := kills[0];
      kills := kills[1..];
      if worker.Some? && worker.value.id == armedFor {
        effects := effects + [Killed(armedFor)];
        worker := None;
      }
    }

    /** The 500 ms timer of `restart-bridge`. */
    method OnRestartDelay()
      requires Valid() && starts > 0
      modifies this
      ensures Valid()
      ensures Model() == StartDelay(old(Model())).next
      ensures effects == old(effects) + StartDelay(old(Model())).effects
    {
      starts := starts - 1;
      StartBridgeWorker();
    }

    /** The `get-status` handler. */
    method GetStatus() returns (r: Snapshot)
      ensures r == SupervisorModel.GetStatus(Model())
    {
      r := status;
    }

    /** The `connect-tos` handler. */
    method ConnectTos() returns (ok: bool)
      modifies this
      ensures ok
      ensures Model() == old(Model())
      ensures effects == old(effects) + SupervisorModel.ConnectTos(old(Model())).effects
    {
      SendToBridge(Command("connect-tos"));
      ok := true;
    }

    /** The `restart-bridge` handler. */
    method RestartBridge() returns (ok: bool)
      requires Valid()
      modifies this
      ensures Valid() && ok
      ensures Model() == Restart(old(Model())).next
      ensures effects == old(effects) + Restart(old(Model())).effects
    {
      StopBridgeWorker();
      starts := starts + 1;
      ok := true;
    }

    /** The `get-subscriptions` handler. */
    method GetSubscriptions() returns (r: seq<Json>)
      ensures r == []
    {
      r := [];
    }
  }
}
