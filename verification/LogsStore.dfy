/// The per-step log store: log lines kept by workflow and then by step.
module LogsStore {
  import opened TuiActions

  type StepLogs = map<string, map<string, seq<LogLine>>>

  /// The lines kept for one workflow step; none when either key is absent.
  function Lookup(m: StepLogs, workflowId: string, stepId: string): seq<LogLine> {
    if workflowId in m && stepId in m[workflowId] then m[workflowId][stepId] else []
  }

  /// The store after lines are appended to one step, creating the workflow's
  /// and the step's entries when they are missing.
  function Appended(m: StepLogs, workflowId: string, stepId: string, logs: seq<LogLine>): StepLogs {
    var steps := if workflowId in m then m[workflowId] else map[];
    var current := if stepId in steps then steps[stepId] else [];
    m[workflowId := steps[stepId := current + logs]]
  }

  /// Appending extends exactly the named step, in order, and no other.
  lemma AppendedLookup(m: StepLogs, workflowId: string, stepId: string, logs: seq<LogLine>, w: string, s: string)
    ensures Lookup(Appended(m, workflowId, stepId, logs), w, s) ==
            if w == workflowId && s == stepId then Lookup(m, w, s) + logs else Lookup(m, w, s)
    ensures workflowId in Appended(m, workflowId, stepId, logs)
    ensures stepId in Appended(m, workflowId, stepId, logs)[workflowId]
  {
  }

  /// Two appends to the same step keep both batches in order.
  lemma AppendTwice(m: StepLogs, workflowId: string, stepId: string, a: seq<LogLine>, b: seq<LogLine>)
    ensures Lookup(Appended(Appended(m, workflowId, stepId, a), workflowId, stepId, b), workflowId, stepId) ==
            Lookup(m, workflowId, stepId) + a + b
  {
    AppendedLookup(m, workflowId, stepId, a, workflowId, stepId);
    AppendedLookup(Appended(m, workflowId, stepId, a), workflowId, stepId, b, workflowId, stepId);
  }

  class LogsStore {
    var logs: StepLogs

    /// `new`: nothing kept.
    constructor ()
      ensures logs == map[]
    {
      logs := map[];
    }

    /// `reduce`: only `StepLogsAppended` changes the store.
    method Reduce(a: Action)
      modifies this
      ensures a.StepLogsAppended? ==> logs == Appended(old(logs), a.stepWorkflowId, a.stepId, a.logs)
      ensures !a.StepLogsAppended? ==> logs == old(logs)
    {
      if a.StepLogsAppended? {
        var workflowLogs := if a.stepWorkflowId in logs then logs[a.stepWorkflowId] else map[];
        var stepLogs := if a.stepId in workflowLogs then workflowLogs[a.stepId] else [];
        logs := logs[a.stepWorkflowId := workflowLogs[a.stepId := stepLogs + a.logs]];
      }
    }

    /// `get_logs`: the step's lines, or none for an unknown workflow or step.
    method GetLogs(workflowId: string, stepId: string) returns (r: seq<LogLine>)
      ensures r == Lookup(logs, workflowId, stepId)
      ensures workflowId !in logs ==> r == []
    {
      if workflowId in logs && stepId in logs[workflowId] {
        r := logs[workflowId][stepId];
      } else {
        r := [];
      }
    }
  }
}
