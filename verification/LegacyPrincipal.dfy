/// The earlier request protocol of the core crate: pipe-separated commands
/// for scheduled tasks and the agent queue.
module LegacyPrincipal {
  import opened Wrappers
  import opened Errors
  import CoreModels
  import EscapeCodec
  import Strings
  import RustInts
  import Tasks
  import Replies

  /// A scheduled task as submitted by CREATETASK.
  datatype NewScheduledTask = NewScheduledTask(
    taskName: string, taskType: string, command: string, args: string, cron: string, nextRunTimestamp: int)

  datatype LegacyApi =
    | Ping
    | CreateTask(task: NewScheduledTask)
    | ListTasks
    | DeleteTask(id: int)
    | AddTask(t: Tasks.Task)
    | RegisterAgent(agentId: string)
    | AgentTaskStatusUpdate(agentId: string, taskId: string, status: CoreModels.RunStatus)
    | FetchTask(agentId: string)

  const Delim: char := EscapeCodec.Pipe

  function Keyword(m: LegacyApi): string {
    match m
    case Ping => "PING"
    case CreateTask(_) => "CREATETASK"
    case ListTasks => "LISTTASKS"
    case DeleteTask(_) => "DELETETASK"
    case AddTask(_) => "ADDTASK"
    case RegisterAgent(_) => "REGISTERAGENT"
    case AgentTaskStatusUpdate(_, _, _) => "AGENTTASKSTATUS"
    case FetchTask(_) => "FETCHTASK"
  }

  predicate IsKeyword(k: string) {
    k in {"PING", "CREATETASK", "LISTTASKS", "DELETETASK", "ADDTASK", "REGISTERAGENT", "AGENTTASKSTATUS", "FETCHTASK"}
  }

  /// The CREATETASK fields, in the order they are read.
  const CreateTaskFields: seq<string> := ["task_name", "task_type", "command", "args", "cron", "next_run_timestamp"]

  /// `helpers::create_new_task_payload`: six fields in order, the last a
  /// 64-bit integer; the first one missing is reported by name.
  function CreateNewTaskPayload(rest: seq<string>): (r: Result<NewScheduledTask, Replies.RepReqError>)
    ensures |rest| < 6 ==> r == Err(Replies.ParseError(CreateTaskFields[|rest|] + " is missing"))
    ensures |rest| >= 6 ==> (r.Ok? <==> RustInts.ParseI64(rest[5]).Some?)
    ensures r.Ok? ==> r.value == NewScheduledTask(rest[0], rest[1], rest[2], rest[3], rest[4], RustInts.ParseI64(rest[5]).value)
  {
    if |rest| < 1 then
      assert CreateTaskFields[0] + " is missing" == "task_name is missing";
      Err(Replies.ParseError("task_name is missing"))
    else if |rest| < 2 then
      assert CreateTaskFields[1] + " is missing" == "task_type is missing";
      Err(Replies.ParseError("task_type is missing"))
    else if |rest| < 3 then
      assert CreateTaskFields[2] + " is missing" == "command is missing";
      Err(Replies.ParseError("command is missing"))
    else if |rest| < 4 then
      assert CreateTaskFields[3] + " is missing" == "args is missing";
      Err(Replies.ParseError("args is missing"))
    else if |rest| < 5 then
      assert CreateTaskFields[4] + " is missing" == "cron is missing";
      Err(Replies.ParseError("cron is missing"))
    else if |rest| < 6 then
      assert CreateTaskFields[5] + " is missing" == "next_run_timestamp is missing";
      Err(Replies.ParseError("next_run_timestamp is missing"))
    else
      match RustInts.ParseI64(rest[5])
      case Some(ts) => Ok(NewScheduledTask(rest[0], rest[1], rest[2], rest[3], rest[4], ts))
      case None => Err(Replies.ParseError("next_run_timestamp is not a valid integer"))
  }

  /// `helpers::create_run_task_payload`: the remaining tokens as a task, any
  /// task error wrapped as a parse error.
  function CreateRunTaskPayload(rest: seq<string>): (r: Result<Tasks.Task, Replies.RepReqError>)
    ensures r.Ok? <==> Tasks.ParseTask(rest).Ok?
    ensures r.Ok? ==> r.value == Tasks.ParseTask(rest).value
    ensures r.Err? ==> r.error == Replies.ParseError("Invalid task definition. Error: " + ZmqParseErrorText(Tasks.ParseTask(rest).error))
  {
    match Tasks.ParseTask(rest)
    case Ok(t) => Ok(t)
    case Err(e) => Err(Replies.ParseError("Invalid task definition. Error: " + ZmqParseErrorText(e)))
  }

  /// `helpers::delete_task_payload`: a 32-bit integer id.
  function DeleteTaskPayload(rest: seq<string>): (r: Result<int, Replies.RepReqError>)
    ensures r.Ok? <==> |rest| >= 1 && RustInts.ParseI32(rest[0]).Some?
    ensures r.Ok? ==> r.value == RustInts.ParseI32(rest[0]).value
    ensures |rest| == 0 ==> r == Err(Replies.ParseError("No payload found for DELETETASK command. Requires TASK_ID"))
  {
    if |rest| == 0 then Err(Replies.ParseError("No payload found for DELETETASK command. Requires TASK_ID"))
    else
      match RustInts.ParseI32(rest[0])
      case Some(v) => Ok(v)
      case None =>
        Err(Replies.ParseError("Unable to create integer from value '" + rest[0] + "'. Error: " +
                               RustInts.ParseIntErrorText(rest[0], true, RustInts.I32Min, RustInts.I32Max)))
  }

  function ParseStatusUpdate(rest: seq<string>): Result<LegacyApi, Replies.RepReqError> {
    if |rest| < 1 then Err(Replies.ParseError("Missing arg AGENT_ID"))
    else if |rest| < 2 then Err(Replies.ParseError("Missing arg TASK_ID"))
    else if |rest| < 3 then Err(Replies.ParseError("Missing arg TASK_STATUS"))
    else
      match CoreModels.ParseStatus(rest[2])
      case Ok(s) => Ok(AgentTaskStatusUpdate(rest[0], rest[1], s))
      case Err(e) => Err(Replies.ParseError(e.msg))
  }

  /// `PrincipalAPI::try_from(ZMQArgs)` over the token list.
  function ParseLegacy(toks: seq<string>): (r: Result<LegacyApi, Replies.RepReqError>)
    ensures toks == [] ==> r == Err(Replies.ParseError("Empty message"))
    ensures |toks| >= 1 && !IsKeyword(toks[0]) ==> r == Err(Replies.ParseError("Unrecognised message type: " + toks[0]))
    ensures r.Ok? ==> |toks| >= 1 && Keyword(r.value) == toks[0]
    ensures r.Err? ==> r.error.ParseError?
  {
    if toks == [] then Err(Replies.ParseError("Empty message"))
    else
      var rest := toks[1..];
      match toks[0]
      case "PING" => Ok(Ping)
      case "CREATETASK" =>
        (match CreateNewTaskPayload(rest)
         case Ok(t) => Ok(CreateTask(t))
         case Err(e) => Err(e))
      case "LISTTASKS" => Ok(ListTasks)
      case "DELETETASK" =>
        (match DeleteTaskPayload(rest)
         case Ok(id) => Ok(DeleteTask(id))
         case Err(e) => Err(e))
      case "ADDTASK" =>
        (match CreateRunTaskPayload(rest)
         case Ok(t) => Ok(AddTask(t))
         case Err(e) => Err(e))
      case "REGISTERAGENT" =>
        if |rest| < 1 then Err(Replies.ParseError("Missing arg AGENT_ID")) else Ok(RegisterAgent(rest[0]))
      case "AGENTTASKSTATUS" => ParseStatusUpdate(rest)
      case "FETCHTASK" =>
        if |rest| < 1 then Err(Replies.ParseError("Missing agent id")) else Ok(FetchTask(rest[0]))
      case _ => Err(Replies.ParseError("Unrecognised message type: " + toks[0]))
  }

  /// The tokens `to_string` writes; ADDTASK carries the task's own tokens.
  function LegacyTokens(m: LegacyApi): (r: seq<string>)
    ensures |r| >= 1 && r[0] == Keyword(m)
  {
    match m
    case Ping => ["PING"]
    case CreateTask(t) =>
      ["CREATETASK", t.taskName, t.taskType, t.command, t.args, t.cron, RustInts.SignedDecimal(t.nextRunTimestamp)]
    case ListTasks => ["LISTTASKS"]
    case DeleteTask(id) => ["DELETETASK", RustInts.SignedDecimal(id)]
    case AddTask(t) => ["ADDTASK"] + Tasks.TaskTokens(t)
    case RegisterAgent(a) => ["REGISTERAGENT", a]
    case AgentTaskStatusUpdate(a, t, s) => ["AGENTTASKSTATUS", a, t, CoreModels.StatusName(s)]
    case FetchTask(a) => ["FETCHTASK", a]
  }

  /// `to_string`: pipe-separated, unescaped; ADDTASK appends the task's own text.
  function ToText(m: LegacyApi): (s: string)
    ensures s == Strings.Join(LegacyTokens(m), [Delim])
  {
    match m
    case AddTask(t) =>
      Strings.JoinCons("ADDTASK", Tasks.TaskTokens(t), "|");
      "ADDTASK|" + Strings.Join(Tasks.TaskTokens(t), "|")
    case _ => Strings.Join(LegacyTokens(m), "|")
  }

  /// A command that reads back as itself: text fields free of the delimiter
  /// and backslash, numbers inside their types, and a task with a non-empty
  /// argument list if it has one.
  predicate Wellformed(m: LegacyApi) {
    match m
    case CreateTask(t) =>
      && EscapeCodec.Plain(t.taskName, Delim) && EscapeCodec.Plain(t.taskType, Delim)
      && EscapeCodec.Plain(t.command, Delim) && EscapeCodec.Plain(t.args, Delim)
      && EscapeCodec.Plain(t.cron, Delim) && RustInts.I64Min <= t.nextRunTimestamp <= RustInts.I64Max
    case DeleteTask(id) => RustInts.I32Min <= id <= RustInts.I32Max
    case AddTask(t) => Tasks.PlainTask(t) && t.pt.args != Some([])
    case RegisterAgent(a) => EscapeCodec.Plain(a, Delim)
    case AgentTaskStatusUpdate(a, t, _) => EscapeCodec.Plain(a, Delim) && EscapeCodec.Plain(t, Delim)
    case FetchTask(a) => EscapeCodec.Plain(a, Delim)
    case _ => true
  }

  lemma KeywordPlain(m: LegacyApi)
    ensures EscapeCodec.Plain(Keyword(m), Delim)
  {
    var k := Keyword(m);
    forall i | 0 <= i < |k| ensures k[i] != Delim && k[i] != EscapeCodec.Backslash {
      assert 'A' <= k[i] <= 'Z';
    }
  }

  lemma SignedDecimalPlain(i: int)
    ensures EscapeCodec.Plain(RustInts.SignedDecimal(i), Delim)
  {
    RustInts.SignedDecimalChars(i);
  }

  lemma TokensPlain(m: LegacyApi)
    requires Wellformed(m)
    ensures forall k :: 0 <= k < |LegacyTokens(m)| ==> EscapeCodec.Plain(LegacyTokens(m)[k], Delim)
  {
    var toks := LegacyTokens(m);
    KeywordPlain(m);
    match m
    case CreateTask(t) => SignedDecimalPlain(t.nextRunTimestamp);
    case DeleteTask(id) => SignedDecimalPlain(id);
    case AddTask(t) =>
      var tt := Tasks.TaskTokens(t);
      forall k | 1 <= k < |toks| ensures EscapeCodec.Plain(toks[k], Delim) {
        assert toks[k] == tt[k - 1];
        if k >= 3 {
          assert tt[k - 1] == t.pt.args.value[k - 3];
        }
      }
    case AgentTaskStatusUpdate(_, _, s) => CoreModels.StatusNamePlain(s, Delim);
    case _ =>
  }

  /// `PrincipalAPI::try_from(String)`.
  function ParseLegacyText(s: string): Result<LegacyApi, Replies.RepReqError> {
    ParseLegacy(EscapeCodec.Tokens(s, Delim))
  }

  /// Printing a well-formed command and reading it back gives the command.
  lemma LegacyRoundTrip(m: LegacyApi)
    requires Wellformed(m)
    ensures ParseLegacyText(ToText(m)) == Ok(m)
  {
    TokensPlain(m);
    EscapeCodec.TokensOfPlainJoin(LegacyTokens(m), Delim);
    ParseTokensRoundTrip(m);
  }

  lemma ParseTokensRoundTrip(m: LegacyApi)
    requires Wellformed(m)
    ensures ParseLegacy(LegacyTokens(m)) == Ok(m)
  {
    var toks := LegacyTokens(m);
    match m
    case CreateTask(t) =>
      RustInts.ParseSignedDecimal(t.nextRunTimestamp, RustInts.I64Min, RustInts.I64Max);
      assert ParseLegacy(toks) == (match CreateNewTaskPayload(toks[1..]) case Ok(x) => Ok(CreateTask(x)) case Err(e) => Err(e));
    case DeleteTask(id) =>
      RustInts.ParseSignedDecimal(id, RustInts.I32Min, RustInts.I32Max);
      assert toks[1..] == [RustInts.SignedDecimal(id)];
    case AddTask(t) =>
      assert toks[1..] == Tasks.TaskTokens(t);
      AddTaskParses(t);
    case AgentTaskStatusUpdate(a, tid, s) =>
      CoreModels.StatusRoundTrip(s);
      assert ParseLegacy(toks) == ParseStatusUpdate(toks[1..]);
    case _ =>
  }

  lemma AddTaskParses(t: Tasks.Task)
    requires t.pt.args != Some([])
    ensures Tasks.ParseTask(Tasks.TaskTokens(t)) == Ok(t)
  {
    var tt := Tasks.TaskTokens(t);
    if t.pt.args.Some? {
      assert tt[2..] == t.pt.args.value;
    }
  }

  /// CREATETASK reports the first missing field by name; a one-token payload
  /// (such as a JSON object) always fails, since five fields are missing.
  lemma CreateTaskMissingFields(toks: seq<string>)
    requires |toks| >= 1 && toks[0] == "CREATETASK"
    ensures |toks| <= 6 ==> ParseLegacy(toks) == Err(Replies.ParseError(CreateTaskFields[|toks| - 1] + " is missing"))
    ensures |toks| == 2 ==> ParseLegacy(toks) == Err(Replies.ParseError("task_type is missing"))
    ensures |toks| >= 7 ==> (ParseLegacy(toks).Ok? <==> RustInts.ParseI64(toks[6]).Some?)
  {
    var rest := toks[1..];
    assert ParseLegacy(toks) == (match CreateNewTaskPayload(rest) case Ok(x) => Ok(CreateTask(x)) case Err(e) => Err(e));
    if |toks| >= 7 {
      assert rest[5] == toks[6];
    }
  }

  /// DELETETASK succeeds exactly when its first argument is a 32-bit integer.
  lemma DeleteTaskArgument(toks: seq<string>)
    requires |toks| >= 1 && toks[0] == "DELETETASK"
    ensures ParseLegacy(toks).Ok? <==> |toks| >= 2 && RustInts.ParseI32(toks[1]).Some?
    ensures ParseLegacy(toks).Ok? ==> ParseLegacy(toks).value == DeleteTask(RustInts.ParseI32(toks[1]).value)
  {
    var rest := toks[1..];
    assert |rest| >= 1 ==> rest[0] == toks[1];
  }

  /// ADDTASK parses the rest as a task and wraps its error.
  lemma AddTaskArgument(toks: seq<string>)
    requires |toks| >= 1 && toks[0] == "ADDTASK"
    ensures ParseLegacy(toks).Ok? <==> Tasks.ParseTask(toks[1..]).Ok?
    ensures ParseLegacy(toks).Ok? ==> ParseLegacy(toks).value == AddTask(Tasks.ParseTask(toks[1..]).value)
    ensures ParseLegacy(toks).Err? ==>
      ParseLegacy(toks).error == Replies.ParseError("Invalid task definition. Error: " + ZmqParseErrorText(Tasks.ParseTask(toks[1..]).error))
  {
  }

  /// Tokens beyond those a command reads are ignored (ADDTASK reads them all).
  lemma ExtraTokensIgnored(toks: seq<string>, extra: seq<string>)
    requires ParseLegacy(toks).Ok? && toks[0] != "ADDTASK"
    ensures ParseLegacy(toks + extra) == ParseLegacy(toks)
  {
    var all := toks + extra;
    assert all[0] == toks[0];
    var rest := toks[1..];
    var rest' := all[1..];
    assert rest' == rest + extra;
    forall i | 0 <= i < |rest| ensures rest'[i] == rest[i] {}
    if toks[0] == "CREATETASK" {
      assert ParseLegacy(toks) == (match CreateNewTaskPayload(rest) case Ok(x) => Ok(CreateTask(x)) case Err(e) => Err(e));
      assert ParseLegacy(all) == (match CreateNewTaskPayload(rest') case Ok(x) => Ok(CreateTask(x)) case Err(e) => Err(e));
    } else if toks[0] == "AGENTTASKSTATUS" {
      assert ParseLegacy(toks) == ParseStatusUpdate(rest);
      assert ParseLegacy(all) == ParseStatusUpdate(rest');
    }
  }

  /// For example, a registration with a trailing token keeps only the
  /// agent id.
  lemma RegisterAgentExtraToken()
    ensures ParseLegacy(["REGISTERAGENT", "8999", "2"]) == Ok(RegisterAgent("8999"))
  {
    ExtraTokensIgnored(["REGISTERAGENT", "8999"], ["2"]);
    assert ["REGISTERAGENT", "8999"] + ["2"] == ["REGISTERAGENT", "8999", "2"];
  }
}
