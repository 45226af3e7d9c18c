/// Shared message models: flow results, run statuses, the argument queue that
/// parsers consume, and the per-agent bookkeeping record.
module CoreModels {
  import opened Wrappers
  import opened Errors
  import EscapeCodec
  import Strings

  datatype FlowExecutionResult = Success | Crashed(msg: string) | Failure(msg: string)

  /// The text of a flow result: the failure message, or nothing for a success.
  function FlowResultText(r: FlowExecutionResult): (s: string)
    ensures r.Success? ==> s == ""
    ensures !r.Success? ==> s == r.msg
  {
    match r
    case Crashed(v) => v
    case Failure(v) => v
    case Success => ""
  }

  datatype RunStatus = Pending | Running | Waiting | Completed | Failed | Crashed

  function StatusName(s: RunStatus): string {
    match s
    case Pending => "PENDING"
    case Running => "RUNNING"
    case Waiting => "WAITING"
    case Completed => "COMPLETED"
    case Failed => "FAILED"
    case Crashed() => "CRASHED"
  }

  /// Reading a status name: exactly the six names are accepted, each as the
  /// status it names; anything else is a parse error that quotes the text.
  function ParseStatus(v: string): (r: Result<RunStatus, GenericError>)
    ensures r.Ok? ==> StatusName(r.value) == v
    ensures r.Err? ==> (forall s :: StatusName(s) != v) && r.error == ParseError("Unrecognised task status: " + v)
  {
    match v
    case "PENDING" => Ok(Pending)
    case "RUNNING" => Ok(Running)
    case "WAITING" => Ok(Waiting)
    case "COMPLETED" => Ok(Completed)
    case "FAILED" => Ok(Failed)
    case "CRASHED" => Ok(RunStatus.Crashed)
    case _ => Err(ParseError("Unrecognised task status: " + v))
  }

  /// Every status survives printing and parsing.
  lemma StatusRoundTrip(s: RunStatus)
    ensures ParseStatus(StatusName(s)) == Ok(s)
  {
  }

  /// A status name holds neither delimiter nor backslash, so it can travel as
  /// one token.
  lemma StatusNamePlain(s: RunStatus, d: char)
    requires d == EscapeCodec.Pipe || d == EscapeCodec.Soh
    ensures EscapeCodec.Plain(StatusName(s), d)
  {
  }

  /// The FIFO of string tokens that message parsers consume.
  class ZmqArgs {
    var inner: seq<string>

    /// `ZMQArgs::from(Vec<String>)`.
    constructor FromTokens(v: seq<string>)
      ensures inner == v
    {
      inner := v;
    }

    /// `ZMQArgs::from(String)`: the tokens of the text.
    constructor FromString(s: string, d: char)
      ensures inner == EscapeCodec.Tokens(s, d)
      ensures |inner| >= 1
    {
      var toks := EscapeCodec.Tokenize(s, d);
      inner := toks;
    }

    /// `next`: remove and return the front token, if any.
    method Next() returns (r: Option<string>)
      modifies this
      ensures old(inner) == [] ==> r == None && inner == []
      ensures old(inner) != [] ==> r == Some(old(inner)[0]) && inner == old(inner)[1..]
    {
      if inner == [] {
        r := None;
      } else {
        r := Some(inner[0]);
        inner := inner[1..];
      }
    }

    /// `put`: append a token at the back.
    method Put(item: string)
      modifies this
      ensures inner == old(inner) + [item]
    {
      inner := inner + [item];
    }

    function Len(): nat
      reads this
    {
      |inner|
    }

    /// `to_string`: the escaped encoding of the remaining tokens.
    method ToString(d: char) returns (s: string)
      ensures s == EscapeCodec.Encoded(inner, d)
      ensures EscapeCodec.ValidDelim(d) && |inner| >= 1 ==> EscapeCodec.Tokens(s, d) == inner
    {
      s := EscapeCodec.Encode(inner, d);
      if EscapeCodec.ValidDelim(d) && |inner| >= 1 {
        EscapeCodec.TokensOfEncoded(inner, d);
      }
    }
  }

  /// Text without backslashes prints back unchanged after being read into an
  /// argument queue.
  lemma ArgsTextRoundTrip(s: string, d: char)
    requires EscapeCodec.ValidDelim(d) && Strings.Free(s, EscapeCodec.Backslash)
    ensures EscapeCodec.Encoded(EscapeCodec.Tokens(s, d), d) == s
  {
    EscapeCodec.EncodedTokensBackslashFree(s, d);
  }

  /// What the principal knows about one agent.
  datatype AgentMeta = AgentMeta(agentId: string, runningTasks: nat, lastPing: int)
  {
    /// One more task running on the agent.
    function IncRunningTasks(): (m: AgentMeta)
      ensures m.runningTasks == runningTasks + 1
      ensures m.agentId == agentId && m.lastPing == lastPing
    {
      this.(runningTasks := runningTasks + 1)
    }

    /// One task fewer, never below zero.
    function DecRunningTasks(): (m: AgentMeta)
      ensures runningTasks > 0 ==> m.runningTasks + 1 == runningTasks
      ensures runningTasks == 0 ==> m == this
      ensures m.agentId == agentId && m.lastPing == lastPing
    {
      if runningTasks > 0 then this.(runningTasks := runningTasks - 1) else this
    }

    /// A new heartbeat time; nothing else changes.
    function UpdateTimestamp(ts: int): (m: AgentMeta)
      ensures m.lastPing == ts
      ensures m.agentId == agentId && m.runningTasks == runningTasks
    {
      this.(lastPing := ts)
    }
  }

  /// A newly seen agent has no running tasks.
  function NewAgentMeta(agentId: string, ts: int): (m: AgentMeta)
    ensures m.agentId == agentId && m.lastPing == ts && m.runningTasks == 0
  {
    AgentMeta(agentId, 0, ts)
  }

  /// Decrementing undoes incrementing.
  lemma IncThenDec(m: AgentMeta)
    ensures m.IncRunningTasks().DecRunningTasks() == m
  {
  }
}
