/// The task definition sent to agents and its pipe-joined text form.
module Tasks {
  import opened Wrappers
  import opened Errors
  import EscapeCodec
  import Strings
  import CoreModels

  datatype ProcessTask = ProcessTask(command: string, args: Option<seq<string>>)

  datatype Task = Process(pt: ProcessTask)

  /// The tokens a task is written as: the type tag, the command, then each argument.
  function TaskTokens(t: Task): (r: seq<string>)
    ensures |r| >= 2 && r[0] == "PROCESS" && r[1] == t.pt.command
  {
    ["PROCESS", t.pt.command] + (if t.pt.args.Some? then t.pt.args.value else [])
  }

  /// `Task::to_string`: collect the tokens, then join them with '|' (no escaping).
  method ToString(t: Task) returns (s: string)
    ensures s == Strings.Join(TaskTokens(t), "|")
  {
    var tokens := ["PROCESS"];
    tokens := tokens + [t.pt.command];
    if t.pt.args.Some? {
      var args := t.pt.args.value;
      var i := 0;
      while i < |args|
        invariant 0 <= i <= |args|
        invariant tokens == ["PROCESS", t.pt.command] + args[..i]
      {
        tokens := tokens + [args[i]];
        assert args[..i + 1] == args[..i] + [args[i]];
        i := i + 1;
      }
      assert args[..|args|] == args;
    } else {
      assert tokens == ["PROCESS", t.pt.command] + [];
    }
    s := Strings.Join(tokens, "|");
  }

  /// `Task::try_from(ZMQArgs)` over the token list: a type tag, which must be
  /// PROCESS, then a command; any further tokens are the arguments.
  function ParseTask(toks: seq<string>): (r: Result<Task, ZmqParseError>)
    ensures r.Ok? <==> |toks| >= 2 && toks[0] == "PROCESS"
    ensures r.Ok? ==> TaskTokens(r.value) == toks
    ensures r.Ok? && r.value.pt.args.Some? ==> |r.value.pt.args.value| >= 1
    ensures toks == [] ==> r == Err(ParseFailure("Missing token to denote task type"))
    ensures |toks| >= 1 && toks[0] != "PROCESS" ==> r == Err(InvalidTaskType)
    ensures toks == ["PROCESS"] ==> r.Err? && r.error.ParseFailure?
  {
    if toks == [] then Err(ParseFailure("Missing token to denote task type"))
    else if toks[0] != "PROCESS" then Err(InvalidTaskType)
    else if |toks| < 2 then
      Err(ParseFailure("Missing tokens for PROCESS msg. Expected tokens COMMAND and (optional) ARGS"))
    else
      Ok(Process(ProcessTask(toks[1], if |toks| == 2 then None else Some(toks[2..]))))
  }

  /// `Task::try_from(ZMQArgs)` as the source writes it, popping tokens from the queue.
  method TryFromArgs(args: CoreModels.ZmqArgs) returns (r: Result<Task, ZmqParseError>)
    modifies args
    ensures r == ParseTask(old(args.inner))
  {
    var typ := args.Next();
    if typ.None? {
      return Err(ParseFailure("Missing token to denote task type"));
    }
    if typ.value != "PROCESS" {
      return Err(InvalidTaskType);
    }
    var command := args.Next();
    if command.None? {
      return Err(ParseFailure("Missing tokens for PROCESS msg. Expected tokens COMMAND and (optional) ARGS"));
    }
    if args.Len() < 1 {
      r := Ok(Process(ProcessTask(command.value, None)));
    } else {
      r := Ok(Process(ProcessTask(command.value, Some(args.inner))));
    }
  }

  /// `Task::try_from(String)`: tokenize, then parse.
  function ParseTaskString(s: string, d: char): Result<Task, ZmqParseError> {
    ParseTask(EscapeCodec.Tokens(s, d))
  }

  /// No field holds the delimiter or a backslash.
  predicate PlainTask(t: Task) {
    && EscapeCodec.Plain(t.pt.command, '|')
    && (t.pt.args.Some? ==> forall k :: 0 <= k < |t.pt.args.value| ==> EscapeCodec.Plain(t.pt.args.value[k], '|'))
  }

  /// A task whose fields are plain text reads back as itself, except that an
  /// empty argument list comes back as no argument list.
  lemma TaskRoundTrip(t: Task)
    requires PlainTask(t)
    ensures t.pt.args != Some([]) ==> ParseTaskString(Strings.Join(TaskTokens(t), "|"), '|') == Ok(t)
    ensures t.pt.args == Some([]) ==> ParseTaskString(Strings.Join(TaskTokens(t), "|"), '|') == Ok(Process(t.pt.(args := None)))
  {
    var toks := TaskTokens(t);
    assert forall k :: 0 <= k < |toks| ==> EscapeCodec.Plain(toks[k], '|') by {
      forall k | 0 <= k < |toks| ensures EscapeCodec.Plain(toks[k], '|') {
        if k >= 2 {
          assert toks[k] == t.pt.args.value[k - 2];
        }
      }
    }
    EscapeCodec.TokensOfPlainJoin(toks, '|');
    if t.pt.args.Some? && t.pt.args.value != [] {
      assert toks[2..] == t.pt.args.value;
    }
  }
}
