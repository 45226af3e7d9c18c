/// The principal's request protocol (the `PrincipalAPI` of the api crate):
/// a keyword token followed by positional arguments, separated by the
/// start-of-heading character.
module ApiPrincipal {
  import opened Wrappers
  import opened Errors
  import opened CoreModels
  import EscapeCodec
  import Strings
  import RustInts

  datatype PrincipalApi =
    | Ping
    | ListWorkflowStore
    | RunTask(taskId: string)
    | RegisterAgent(agentId: string)
    | WorkflowStatusUpdate(agentId: string, workflowId: string, workflowInstanceId: string, status: RunStatus)
    | TaskStatusUpdate(agentId: string, taskId: string, taskExecutionId: string, workflowInstanceId: string, status: RunStatus)
    | FetchWorkflow(agentId: string)
    | QueryLogs(endTs: Option<int>, startTs: Option<int>, logWorkflowId: Option<string>, logInstanceId: Option<string>, verbose: bool)
    | GetRecentWorkflowStatuses
    | GetRegisteredAgents

  /// The delimiter this protocol travels with.
  const Delim: char := EscapeCodec.Soh

  /// The keyword that introduces each command.
  function Keyword(m: PrincipalApi): string {
    match m
    case Ping => "PING"
    case ListWorkflowStore => "LSWORKFLOWS"
    case RunTask(_) => "RUNTASK"
    case RegisterAgent(_) => "REGISTERAGENT"
    case WorkflowStatusUpdate(_, _, _, _) => "AGENTWORKFLOWSTATUS"
    case TaskStatusUpdate(_, _, _, _, _) => "AGENTTASKSTATUS"
    case FetchWorkflow(_) => "FETCHWORKFLOW"
    case QueryLogs(_, _, _, _, _) => "QUERYLOGS"
    case GetRecentWorkflowStatuses => "GETRECENTSTATUSES"
    case GetRegisteredAgents => "GETREGISTEREDAGENTS"
  }

  /// The keywords the parser recognises.
  predicate IsKeyword(k: string) {
    k in {"PING", "LSWORKFLOWS", "RUNTASK", "REGISTERAGENT", "AGENTWORKFLOWSTATUS", "AGENTTASKSTATUS",
          "FETCHWORKFLOW", "QUERYLOGS", "GETRECENTSTATUSES", "GETREGISTEREDAGENTS"}
  }

  /// Names of the positional arguments, in the order the parser asks for them.
  const WorkflowStatusArgs: seq<string> := ["AGENT_ID", "TASK_ID", "TASK_EXECUTION_ID", "TASK_STATUS"]
  const TaskStatusArgs: seq<string> := ["AGENT_ID", "TASK_ID", "TASK_EXECUTION_ID", "WORKFLOW_INSTANCE_ID", "TASK_STATUS"]

  /// `helpers::create_run_task_payload`: the next token, verbatim (reading a
  /// string out of a string cannot fail).
  function CreateRunTaskPayload(rest: seq<string>): (r: Result<string, GenericError>)
    ensures r.Ok? <==> |rest| >= 1
    ensures r.Ok? ==> r.value == rest[0]
    ensures r.Err? ==> r.error == ParseError("Request is missing task_id")
  {
    if |rest| == 0 then Err(ParseError("Request is missing task_id")) else Ok(rest[0])
  }

  /// An optional timestamp field: empty means absent, otherwise a `u64`.
  function OptionalTimestamp(v: string): (r: Result<Option<int>, GenericError>)
    ensures v == "" <==> r == Ok(None)
    ensures r.Ok? && r.value.Some? ==> 0 <= r.value.value <= RustInts.U64Max && RustInts.ParseU64(v) == r.value
    ensures r.Err? <==> v != "" && RustInts.ParseU64(v).None?
  {
    if |v| == 0 then Ok(None)
    else
      match RustInts.ParseU64(v)
      case Some(n) => Ok(Some(n))
      case None => Err(ParseError("Not a valid end timestamp"))
  }

  /// An optional text field: empty means absent.
  function OptionalText(v: string): (r: Option<string>)
    ensures r.None? <==> v == ""
    ensures r.Some? ==> r.value == v
  {
    if |v| > 0 then Some(v) else None
  }

  function ParseWorkflowStatus(rest: seq<string>): (r: Result<PrincipalApi, GenericError>)
    ensures r.Ok? ==> r.value.WorkflowStatusUpdate? && |rest| >= 4 && StringArgs(r.value) == rest[..3]
    ensures r.Err? ==> r.error.ParseError?
  {
    if |rest| < 1 then Err(ParseError("Missing arg AGENT_ID"))
    else if |rest| < 2 then Err(ParseError("Missing arg TASK_ID"))
    else if |rest| < 3 then Err(ParseError("Missing arg TASK_EXECUTION_ID"))
    else if |rest| < 4 then Err(ParseError("Missing arg TASK_STATUS"))
    else
      match ParseStatus(rest[3])
      case Ok(s) => Ok(WorkflowStatusUpdate(rest[0], rest[1], rest[2], s))
      case Err(e) => Err(e)
  }

  function ParseTaskStatus(rest: seq<string>): (r: Result<PrincipalApi, GenericError>)
    ensures r.Ok? ==> r.value.TaskStatusUpdate? && |rest| >= 5 && StringArgs(r.value) == rest[..4]
    ensures r.Err? ==> r.error.ParseError?
  {
    if |rest| < 1 then Err(ParseError("Missing arg AGENT_ID"))
    else if |rest| < 2 then Err(ParseError("Missing arg TASK_ID"))
    else if |rest| < 3 then Err(ParseError("Missing arg TASK_EXECUTION_ID"))
    else if |rest| < 4 then Err(ParseError("Missing arg WORKFLOW_INSTANCE_ID"))
    else if |rest| < 5 then Err(ParseError("Missing arg TASK_STATUS"))
    else
      match ParseStatus(rest[4])
      case Ok(s) => Ok(TaskStatusUpdate(rest[0], rest[1], rest[2], rest[3], s))
      case Err(e) => Err(e)
  }

  /// QUERYLOGS: each timestamp is parsed as soon as it is read, before the next
  /// token is asked for; the start timestamp reuses the end timestamp's
  /// message. Verbose is on iff a fifth, non-empty token is present.
  function ParseQueryLogs(rest: seq<string>): (r: Result<PrincipalApi, GenericError>)
    ensures r.Ok? ==> r.value.QueryLogs? && |rest| >= 4
    ensures r.Err? ==> r.error.ParseError?
  {
    if |rest| < 1 then Err(ParseError("Missing END_TIMESTAMP"))
    else
      match OptionalTimestamp(rest[0])
      case Err(e) => Err(e)
      case Ok(endTs) =>
        if |rest| < 2 then Err(ParseError("Missing START_TIMESTAMP parameter"))
        else
          match OptionalTimestamp(rest[1])
          case Err(e) => Err(e)
          case Ok(startTs) =>
            if |rest| < 3 then Err(ParseError("Missing WORKFLOW_ID parameter"))
            else if |rest| < 4 then Err(ParseError("Missing WORKFLOW_INSTANCE_ID parameter"))
            else
              Ok(QueryLogs(endTs, startTs, OptionalText(rest[2]), OptionalText(rest[3]), |rest| >= 5 && |rest[4]| > 0))
  }

  /// `PrincipalAPI::try_from(ZMQArgs)` over the token list. Tokens beyond
  /// those a command reads are ignored.
  function ParseApi(toks: seq<string>): (r: Result<PrincipalApi, GenericError>)
    ensures toks == [] ==> r == Err(ParseError("Empty message"))
    ensures |toks| >= 1 && !IsKeyword(toks[0]) ==> r == Err(ParseError("Unrecognised message type: " + toks[0]))
    ensures r.Ok? ==> |toks| >= 1 && Keyword(r.value) == toks[0]
    ensures r.Ok? ==> |toks| >= 1 + Arity(r.value)
    ensures r.Ok? ==> forall k :: 0 <= k < |StringArgs(r.value)| ==> StringArgs(r.value)[k] == toks[1 + k]
    ensures r.Err? ==> r.error.ParseError?
  {
    if toks == [] then Err(ParseError("Empty message"))
    else
      var rest := toks[1..];
      match toks[0]
      case "PING" => Ok(Ping)
      case "LSWORKFLOWS" => Ok(ListWorkflowStore)
      case "RUNTASK" =>
        (match CreateRunTaskPayload(rest)
         case Ok(id) => Ok(RunTask(id))
         case Err(e) => Err(e))
      case "REGISTERAGENT" =>
        if |rest| < 1 then Err(ParseError("Missing arg AGENT_ID")) else Ok(RegisterAgent(rest[0]))
      case "AGENTWORKFLOWSTATUS" => ParseWorkflowStatus(rest)
      case "AGENTTASKSTATUS" => ParseTaskStatus(rest)
      case "FETCHWORKFLOW" =>
        if |rest| < 1 then Err(ParseError("Missing agent id")) else Ok(FetchWorkflow(rest[0]))
      case "QUERYLOGS" => ParseQueryLogs(rest)
      case "GETRECENTSTATUSES" => Ok(GetRecentWorkflowStatuses)
      case "GETREGISTEREDAGENTS" => Ok(GetRegisteredAgents)
      case _ => Err(ParseError("Unrecognised message type: " + toks[0]))
  }

  /// How many argument tokens a command is written with.
  function Arity(m: PrincipalApi): nat {
    match m
    case RunTask(_) => 1
    case RegisterAgent(_) => 1
    case WorkflowStatusUpdate(_, _, _, _) => 4
    case TaskStatusUpdate(_, _, _, _, _) => 5
    case FetchWorkflow(_) => 1
    case QueryLogs(_, _, _, _, _) => 4
    case _ => 0
  }

  /// The leading string arguments a command carries verbatim.
  function StringArgs(m: PrincipalApi): seq<string> {
    match m
    case RunTask(t) => [t]
    case RegisterAgent(a) => [a]
    case WorkflowStatusUpdate(a, w, i, _) => [a, w, i]
    case TaskStatusUpdate(a, t, e, i, _) => [a, t, e, i]
    case FetchWorkflow(a) => [a]
    case _ => []
  }

  function TimestampText(t: Option<int>): string {
    if t.Some? && t.value >= 0 then RustInts.Decimal(t.value) else ""
  }

  /// The tokens `to_string` writes for a command.
  function ApiTokens(m: PrincipalApi): (r: seq<string>)
    ensures |r| >= 1 && r[0] == Keyword(m)
  {
    match m
    case Ping => ["PING"]
    case ListWorkflowStore => ["LSWORKFLOWS"]
    case RunTask(t) => ["RUNTASK", t]
    case RegisterAgent(a) => ["REGISTERAGENT", a]
    case WorkflowStatusUpdate(a, w, i, s) => ["AGENTWORKFLOWSTATUS", a, w, i, StatusName(s)]
    case TaskStatusUpdate(a, t, e, i, s) => ["AGENTTASKSTATUS", a, t, e, i, StatusName(s)]
    case FetchWorkflow(a) => ["FETCHWORKFLOW", a]
    case QueryLogs(e, s, w, i, v) =>
      ["QUERYLOGS", TimestampText(e), TimestampText(s),
       if w.Some? then w.value else "", if i.Some? then i.value else "", if v then "v" else ""]
    case GetRecentWorkflowStatuses => ["GETRECENTSTATUSES"]
    case GetRegisteredAgents => ["GETREGISTEREDAGENTS"]
  }

  /// A command whose fields can be written and read back: no text field holds
  /// the delimiter or a backslash, optional text is absent rather than empty,
  /// and timestamps fit in a `u64`.
  predicate Wellformed(m: PrincipalApi) {
    && (forall k :: 0 <= k < |StringArgs(m)| ==> EscapeCodec.Plain(StringArgs(m)[k], Delim))
    && (m.QueryLogs? ==>
          && (m.endTs.Some? ==> 0 <= m.endTs.value <= RustInts.U64Max)
          && (m.startTs.Some? ==> 0 <= m.startTs.value <= RustInts.U64Max)
          && (m.logWorkflowId.Some? ==> m.logWorkflowId.value != "" && EscapeCodec.Plain(m.logWorkflowId.value, Delim))
          && (m.logInstanceId.Some? ==> m.logInstanceId.value != "" && EscapeCodec.Plain(m.logInstanceId.value, Delim)))
  }

  /// `to_string`: the tokens joined by the delimiter (no escaping).
  function ToText(m: PrincipalApi): (s: string)
    ensures Wellformed(m) ==> EscapeCodec.Tokens(s, Delim) == ApiTokens(m)
  {
    var toks := ApiTokens(m);
    if Wellformed(m) then
      TokensPlain(m);
      EscapeCodec.TokensOfPlainJoin(toks, Delim);
      Strings.Join(toks, [Delim])
    else
      Strings.Join(toks, [Delim])
  }

  lemma DecimalPlain(n: nat)
    ensures EscapeCodec.Plain(RustInts.Decimal(n), Delim)
  {
    RustInts.DecimalDigits(n);
  }

  /// Keywords are plain text.
  lemma KeywordPlain(m: PrincipalApi)
    ensures EscapeCodec.Plain(Keyword(m), Delim)
  {
    var k := Keyword(m);
    forall i | 0 <= i < |k| ensures k[i] != Delim && k[i] != EscapeCodec.Backslash {
      assert 'A' <= k[i] <= 'Z';
    }
  }

  /// Every token of a well-formed command is plain text.
  lemma TokensPlain(m: PrincipalApi)
    requires Wellformed(m)
    ensures forall k :: 0 <= k < |ApiTokens(m)| ==> EscapeCodec.Plain(ApiTokens(m)[k], Delim)
  {
    var toks := ApiTokens(m);
    var args := StringArgs(m);
    KeywordPlain(m);
    forall k | 0 <= k < |toks| ensures EscapeCodec.Plain(toks[k], Delim) {
      if k == 0 {
      } else if k <= |args| {
        assert toks[k] == args[k - 1];
      } else if m.WorkflowStatusUpdate? || m.TaskStatusUpdate? {
        assert toks[k] == StatusName(m.status);
        StatusNamePlain(m.status, Delim);
      } else {
        assert m.QueryLogs?;
        if k == 1 && m.endTs.Some? { DecimalPlain(m.endTs.value); }
        if k == 2 && m.startTs.Some? { DecimalPlain(m.startTs.value); }
      }
    }
  }

  /// `PrincipalAPI::try_from(String)`: tokenize, then parse.
  function ParseApiText(s: string): Result<PrincipalApi, GenericError> {
    ParseApi(EscapeCodec.Tokens(s, Delim))
  }

  /// Writing a well-formed command and reading it back gives the command.
  lemma ApiRoundTrip(m: PrincipalApi)
    requires Wellformed(m)
    ensures ParseApiText(ToText(m)) == Ok(m)
  {
    TokensRoundTrip(m);
    assert EscapeCodec.Tokens(ToText(m), Delim) == ApiTokens(m);
  }

  lemma TokensRoundTrip(m: PrincipalApi)
    requires Wellformed(m)
    ensures ParseApi(ApiTokens(m)) == Ok(m)
  {
    match m
    case WorkflowStatusUpdate(_, _, _, _) => StatusUpdateRoundTrip(m);
    case TaskStatusUpdate(_, _, _, _, _) => StatusUpdateRoundTrip(m);
    case QueryLogs(_, _, _, _, _) => QueryLogsRoundTrip(m);
    case _ =>
  }

  lemma StatusUpdateRoundTrip(m: PrincipalApi)
    requires m.WorkflowStatusUpdate? || m.TaskStatusUpdate?
    ensures ParseApi(ApiTokens(m)) == Ok(m)
  {
    var toks := ApiTokens(m);
    StatusRoundTrip(m.status);
    if m.WorkflowStatusUpdate? {
      assert ParseApi(toks) == ParseWorkflowStatus(toks[1..]);
    } else {
      assert ParseApi(toks) == ParseTaskStatus(toks[1..]);
    }
  }

  lemma TimestampRoundTrip(t: Option<int>)
    requires t.Some? ==> 0 <= t.value <= RustInts.U64Max
    ensures OptionalTimestamp(TimestampText(t)) == Ok(t)
  {
    if t.Some? {
      RustInts.ParseDecimal(t.value, false, 0, RustInts.U64Max);
      RustInts.DecimalDigits(t.value);
    }
  }

  lemma QueryLogsRoundTrip(m: PrincipalApi)
    requires m.QueryLogs? && Wellformed(m)
    ensures ParseApi(ApiTokens(m)) == Ok(m)
  {
    var toks := ApiTokens(m);
    TimestampRoundTrip(m.endTs);
    TimestampRoundTrip(m.startTs);
    assert ParseApi(toks) == ParseQueryLogs(toks[1..]);
  }

  /// The status-update commands ask for their arguments left to right and
  /// report the first one that is missing by name; once all are present the
  /// parse succeeds exactly when the status token names a status.
  lemma WorkflowStatusArguments(toks: seq<string>)
    requires |toks| >= 1 && toks[0] == "AGENTWORKFLOWSTATUS"
    ensures |toks| <= 4 ==> ParseApi(toks) == Err(ParseError("Missing arg " + WorkflowStatusArgs[|toks| - 1]))
    ensures |toks| >= 5 ==> (ParseApi(toks).Ok? <==> ParseStatus(toks[4]).Ok?)
  {
    var rest := toks[1..];
    assert ParseApi(toks) == ParseWorkflowStatus(rest);
    if |toks| <= 4 {
      WorkflowStatusMissing(rest);
    } else {
      assert rest[3] == toks[4];
    }
  }

  lemma WorkflowStatusMissing(rest: seq<string>)
    requires |rest| < 4
    ensures ParseWorkflowStatus(rest) == Err(ParseError("Missing arg " + WorkflowStatusArgs[|rest|]))
  {
    if |rest| == 0 {
      assert "Missing arg " + WorkflowStatusArgs[0] == "Missing arg AGENT_ID";
    } else if |rest| == 1 {
      assert "Missing arg " + WorkflowStatusArgs[1] == "Missing arg TASK_ID";
    } else if |rest| == 2 {
      assert "Missing arg " + WorkflowStatusArgs[2] == "Missing arg TASK_EXECUTION_ID";
    } else {
      assert "Missing arg " + WorkflowStatusArgs[3] == "Missing arg TASK_STATUS";
    }
  }

  lemma TaskStatusArguments(toks: seq<string>)
    requires |toks| >= 1 && toks[0] == "AGENTTASKSTATUS"
    ensures |toks| <= 5 ==> ParseApi(toks) == Err(ParseError("Missing arg " + TaskStatusArgs[|toks| - 1]))
    ensures |toks| >= 6 ==> (ParseApi(toks).Ok? <==> ParseStatus(toks[5]).Ok?)
  {
    var rest := toks[1..];
    assert ParseApi(toks) == ParseTaskStatus(rest);
    if |toks| <= 5 {
      TaskStatusMissing(rest);
    } else {
      assert rest[4] == toks[5];
    }
  }

  lemma TaskStatusMissing(rest: seq<string>)
    requires |rest| < 5
    ensures ParseTaskStatus(rest) == Err(ParseError("Missing arg " + TaskStatusArgs[|rest|]))
  {
    if |rest| == 0 {
      assert "Missing arg " + TaskStatusArgs[0] == "Missing arg AGENT_ID";
    } else if |rest| == 1 {
      assert "Missing arg " + TaskStatusArgs[1] == "Missing arg TASK_ID";
    } else if |rest| == 2 {
      assert "Missing arg " + TaskStatusArgs[2] == "Missing arg TASK_EXECUTION_ID";
    } else if |rest| == 3 {
      assert "Missing arg " + TaskStatusArgs[3] == "Missing arg WORKFLOW_INSTANCE_ID";
    } else {
      assert "Missing arg " + TaskStatusArgs[4] == "Missing arg TASK_STATUS";
    }
  }

  /// QUERYLOGS with its four fields present: empty fields are absent, a
  /// non-empty timestamp must be a `u64`, and verbose is set iff a fifth
  /// non-empty token follows.
  lemma QueryLogsFields(toks: seq<string>)
    requires |toks| >= 5 && toks[0] == "QUERYLOGS"
    ensures ParseApi(toks).Ok? <==>
      (toks[1] == "" || RustInts.ParseU64(toks[1]).Some?) && (toks[2] == "" || RustInts.ParseU64(toks[2]).Some?)
    ensures ParseApi(toks).Ok? ==>
      var m := ParseApi(toks).value;
      && (m.endTs.None? <==> toks[1] == "")
      && (m.startTs.None? <==> toks[2] == "")
      && m.logWorkflowId == OptionalText(toks[3])
      && m.logInstanceId == OptionalText(toks[4])
      && (m.verbose <==> |toks| >= 6 && toks[5] != "")
  {
    var rest := toks[1..];
    assert rest[0] == toks[1] && rest[1] == toks[2] && rest[2] == toks[3] && rest[3] == toks[4];
    assert |rest| >= 5 ==> rest[4] == toks[5];
  }

  /// RUNTASK fails only when the task id is missing.
  lemma RunTaskArgument(toks: seq<string>)
    requires |toks| >= 1 && toks[0] == "RUNTASK"
    ensures |toks| == 1 ==> ParseApi(toks) == Err(ParseError("Request is missing task_id"))
    ensures |toks| >= 2 ==> ParseApi(toks) == Ok(RunTask(toks[1]))
  {
  }

  /// One entry of `get_meta`: an action name and its description.
  datatype ApiMeta = ApiMeta(action: string, description: string)

  const MetaActions: seq<string> :=
    ["PING", "LSWORKFLOWS", "REGISTERAGENT", "AGENTWORKFLOWSTATUS", "AGENTTASKSTATUS",
     "FETCHWORKFLOW", "QUERYLOGS", "GETLATESTSTATUS", "GETREGISTEREDAGENTS"]

  const MetaDescriptions: seq<string> :=
    [ "Check server is online",
      "Lists all workflows defined in the workflow directory",
      "Allows an agent to register itself with the principal",
      "Allows an agent to update the principal with the status of a specific workflow",
      "Allows an agent to update the principal with the status of a specific task",
      "Allows an agent to fetch a unit of work from the principal task queue. Returns a success message if there is no work to do.",
      "Queries logs from the main principal database",
      "Get latest status update for a workflow (workflow_id)",
      "Get list of all registered agents with their metadata" ]

  /// `get_meta`: the advertised actions, as written. All but the eighth are
  /// keywords the parser accepts.
  function GetMeta(): (r: seq<ApiMeta>)
    ensures |r| == 9 && r[7].action == "GETLATESTSTATUS" && !IsKeyword(r[7].action)
    ensures forall i :: 0 <= i < |r| && i != 7 ==> IsKeyword(r[i].action)
  {
    seq(|MetaActions|, i requires 0 <= i < |MetaActions| => ApiMeta(MetaActions[i], MetaDescriptions[i]))
  }

  /// The advertised list and the parser disagree: one advertised action is
  /// rejected, and two accepted keywords are not advertised.
  lemma MetaDisagreesWithParser()
    ensures exists i :: 0 <= i < |GetMeta()| && ParseApi([GetMeta()[i].action]).Err?
    ensures ParseApi(["GETRECENTSTATUSES"]) == Ok(GetRecentWorkflowStatuses)
    ensures forall i :: 0 <= i < |GetMeta()| ==> GetMeta()[i].action != "GETRECENTSTATUSES" && GetMeta()[i].action != "RUNTASK"
  {
    var meta := GetMeta();
    assert meta[7].action == "GETLATESTSTATUS";
    assert ParseApi([meta[7].action]).Err?;
  }
}
