/**
 * The line protocol from the worker to the supervisor: every record the
 * worker writes with `sendToParent(type, data)` is the object
 * `{ type, ...data }` on one line, and the supervisor's `line` callback
 * reads it back. These lemmas connect the two state machines.
 */
module Protocol {
  import opened Wrappers
  import opened Json
  import B = BridgeModel
  import S = SupervisorModel

  /** The parsed form of a record the worker writes; `log` adds its time stamp. */
  function RecordJson(rec: B.ParentRecord, timestamp: string): (j: Json)
    ensures j.JObj? && "type" in j.fields
    ensures rec.Log? ==>
      && j.fields.Keys == {"type", "message", "logType", "timestamp"}
      && j.fields["type"] == JStr("log") && j.fields["message"] == JStr(rec.message)
      && j.fields["logType"] == JStr(rec.logType) && j.fields["timestamp"] == JStr(timestamp)
    ensures rec.Status? ==> j.fields.Keys == rec.fields.Keys + {"type"}
    ensures rec.Status? ==> forall k :: k in rec.fields ==> j.fields[k] == rec.fields[k]
    ensures rec.Status? && "type" !in rec.fields ==> j.fields["type"] == JStr("status")
  {
    match rec
    case Log(message, logType) =>
      Tagged("log", map["message" := JStr(message), "logType" := JStr(logType), "timestamp" := JStr(timestamp)])
    case Status(fields) => Tagged("status", fields)
  }

  /** A worker log line becomes one supervisor log line with the same text and level. */
  lemma LogRecordsRelayed(s: S.State, line: string, message: string, logType: string, timestamp: string)
    ensures S.DispatchLine(s, line, Some(RecordJson(B.Log(message, logType), timestamp)))
         == S.Transition(s, [S.Logged(Some(JStr(message)), JStr(logType))])
  {
    var f := map["message" := JStr(message), "logType" := JStr(logType), "timestamp" := JStr(timestamp)];
    assert "type" !in f;
    var j := RecordJson(B.Log(message, logType), timestamp);
    assert j.fields["message"] == JStr(message) && j.fields["logType"] == JStr(logType);
  }

  /**
   * A worker status record is merged into the snapshot: each field it
   * carries takes the reported value, and `type` becomes `status`.
   */
  lemma StatusRecordsMerged(s: S.State, line: string, fields: map<string, Json>, timestamp: string)
    requires "type" !in fields
    ensures var t := S.DispatchLine(s, line, Some(RecordJson(B.Status(fields), timestamp)));
      && t.next.worker == s.worker
      && (forall k :: k in fields ==> k in t.next.status && t.next.status[k] == fields[k])
      && t.next.status["type"] == JStr("status")
      && (forall k :: k in s.status && k !in fields && k != "type" ==> t.next.status[k] == s.status[k])
  {
    var j := RecordJson(B.Status(fields), timestamp);
    S.StatusRecordMergedWhole(s, line, j.fields);
  }

  /**
   * The answer to `get-status`, once the supervisor reads it, makes the
   * window's client and subscription counts the sizes of the worker's
   * client set and registry.
   */
  lemma ReportedCountsReachSnapshot(b: B.Bridge, s: S.State, line: string, timestamp: string)
    requires B.Distinct(b.clients)
    ensures var st := S.DispatchLine(s, line, Some(RecordJson(B.StatusReport(b), timestamp))).next.status;
      && "clientCount" in st && st["clientCount"] == JNum(|B.SetOf(b.clients)|)
      && "subscriptionCount" in st && st["subscriptionCount"] == JNum(|b.subs|)
      && "tosConnected" in st && st["tosConnected"] == JBool(b.rtd)
      && "serverRunning" in st && st["serverRunning"] == JBool(b.server)
  {
    B.DistinctCard(b.clients);
    StatusRecordsMerged(s, line, B.StatusReport(b).fields, timestamp);
  }

  /**
   * No status record of the worker carries its own `type`, so the spread in
   * `sendToParent` never overrides the tag: every line the worker writes is
   * tagged `log` or `status` and the supervisor either relays it as a log
   * line or merges it and shows the snapshot; none is ignored.
   */
  lemma {:induction false} WorkerRecordsReachSupervisor(out: seq<B.Output>, s: S.State, line: string, timestamp: string)
    requires B.Untyped(out)
    ensures forall o :: o in out && o.ToParent? ==>
      RecordJson(o.rec, timestamp).fields["type"] == (if o.rec.Log? then JStr("log") else JStr("status"))
    ensures forall o :: o in out && o.ToParent? ==>
      var t := S.DispatchLine(s, line, Some(RecordJson(o.rec, timestamp)));
      && |t.effects| == 1
      && (o.rec.Log? ==> t.effects[0] == S.Logged(Some(JStr(o.rec.message)), JStr(o.rec.logType)))
      && (o.rec.Status? ==> t.effects[0] == S.StatusSent(t.next.status))
  {
    forall o | o in out && o.ToParent?
      ensures var t := S.DispatchLine(s, line, Some(RecordJson(o.rec, timestamp)));
        && |t.effects| == 1
        && (o.rec.Log? ==> t.effects[0] == S.Logged(Some(JStr(o.rec.message)), JStr(o.rec.logType)))
        && (o.rec.Status? ==> t.effects[0] == S.StatusSent(t.next.status))
    {
      match o.rec
      case Log(message, logType) =>
        LogRecordsRelayed(s, line, message, logType, timestamp);
      case Status(fields) =>
        S.StatusRecordMergedWhole(s, line, RecordJson(o.rec, timestamp).fields);
    }
  }
}
