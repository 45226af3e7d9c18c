/// Log lines agents publish to the log manager: a workflow instance id, a
/// millisecond timestamp, a level and the text, pipe-separated on the wire.
module LogMessages {
  import opened Wrappers
  import opened Errors
  import EscapeCodec
  import Strings
  import RustInts

  datatype LogMessage = LogMessage(workflowInstanceId: string, timestampMs: nat, level: string, payload: string)

  const Delim: char := EscapeCodec.Pipe

  const TooFewParts: string := "LogMessage must have at least 4 parts: topic, timestamp, level and payload"

  /// `LogMessage::format` given the RFC 3339 text of the timestamp: the
  /// instance id first, then the time and level in brackets, then the text.
  function Format(m: LogMessage, timeText: string): (r: string)
    ensures |r| == |m.workflowInstanceId| + |timeText| + |m.level| + |m.payload| + 5
    ensures r[..|m.workflowInstanceId|] == m.workflowInstanceId
    ensures r[|m.workflowInstanceId| + |timeText| + 3..][..|m.level|] == m.level
    ensures r[|r| - |m.payload|..] == m.payload
  {
    var r := m.workflowInstanceId + " [" + timeText + " " + m.level + "] " + m.payload;
    assert r[|m.workflowInstanceId| + |timeText| + 3..][..|m.level|] == m.level;
    r
  }

  /// `TryFrom<ZmqMessage>` over the token list: at least four tokens, the
  /// second an unsigned 128-bit integer; tokens after the fourth are dropped.
  function ParseLog(toks: seq<string>): (r: Result<LogMessage, GenericError>)
    ensures |toks| < 4 ==> r == Err(ZmqError(ParseFailure(TooFewParts)))
    ensures r.Ok? <==> |toks| >= 4 && RustInts.ParseU128(toks[1]).Some?
    ensures r.Ok? ==> r.value == LogMessage(toks[0], RustInts.ParseU128(toks[1]).value, toks[2], toks[3])
  {
    if |toks| < 4 then Err(ZmqError(ParseFailure(TooFewParts)))
    else
      match RustInts.ParseU128(toks[1])
      case Some(ts) => Ok(LogMessage(toks[0], ts, toks[2], toks[3]))
      case None => Err(ParseError(toks[1]))
  }

  function ParseLogText(s: string): Result<LogMessage, GenericError> {
    ParseLog(EscapeCodec.Tokens(s, Delim))
  }

  function LogTokens(m: LogMessage): seq<string> {
    [m.workflowInstanceId, RustInts.Decimal(m.timestampMs), m.level, m.payload]
  }

  /// `Into<ZmqMessage>`: the four fields in order, pipe-separated, unescaped.
  function ToText(m: LogMessage): (s: string)
    ensures s == Prefix(LogTokens(m)[..3]) + m.payload
  {
    var t := LogTokens(m);
    assert t[..3] == [t[0], t[1], t[2]];
    PrefixOfThree(t[0], t[1], t[2]);
    m.workflowInstanceId + "|" + RustInts.Decimal(m.timestampMs) + "|" + m.level + "|" + m.payload
  }

  lemma PrefixOfThree(a: string, b: string, c: string)
    ensures Prefix([a, b, c]) == a + [Delim] + b + [Delim] + c + [Delim]
  {
    assert [a, b, c][1..] == [b, c];
    assert [b, c][1..] == [c];
    assert [c][1..] == [];
    assert Prefix([c]) == c + [Delim];
    assert Prefix([b, c]) == b + [Delim] + (c + [Delim]);
  }

  /// A message with plain text fields and a timestamp that fits reads back
  /// as itself.
  lemma LogRoundTrip(m: LogMessage)
    requires EscapeCodec.Plain(m.workflowInstanceId, Delim) && EscapeCodec.Plain(m.level, Delim)
    requires EscapeCodec.Plain(m.payload, Delim) && m.timestampMs <= RustInts.U128Max
    ensures ParseLogText(ToText(m)) == Ok(m)
  {
    var front := LogTokens(m)[..3];
    RustInts.DecimalDigits(m.timestampMs);
    RustInts.ParseDecimal(m.timestampMs, false, 0, RustInts.U128Max);
    assert front == [m.workflowInstanceId, RustInts.Decimal(m.timestampMs), m.level];
    TokensAfterPlainFields(front, m.payload);
    EscapeCodec.TokensOfPlainJoin([m.payload], Delim);
    assert front + [m.payload] == LogTokens(m);
  }

  /// A payload holding a pipe is cut at the first pipe.
  lemma PipeInPayloadTruncates(m: LogMessage, a: string, b: string)
    requires EscapeCodec.Plain(m.workflowInstanceId, Delim) && EscapeCodec.Plain(m.level, Delim)
    requires m.timestampMs <= RustInts.U128Max
    requires EscapeCodec.Plain(a, Delim) && m.payload == a + [Delim] + b
    ensures ParseLogText(ToText(m)) == Ok(m.(payload := a))
  {
    var front := LogTokens(m)[..3];
    RustInts.DecimalDigits(m.timestampMs);
    RustInts.ParseDecimal(m.timestampMs, false, 0, RustInts.U128Max);
    assert front == [m.workflowInstanceId, RustInts.Decimal(m.timestampMs), m.level];
    EscapeCodec.TokensSplitAtDelimiter(a, b, Delim);
    TokensAfterPlainFields(front, m.payload);
    var toks := front + ([a] + EscapeCodec.Tokens(b, Delim));
    assert toks[0] == m.workflowInstanceId && toks[1] == RustInts.Decimal(m.timestampMs);
    assert toks[2] == m.level && toks[3] == a;
  }

  /// Tokenizing plain fields, each followed by the delimiter, then any text.
  lemma {:induction false} TokensAfterPlainFields(front: seq<string>, rest: string)
    requires forall k :: 0 <= k < |front| ==> EscapeCodec.Plain(front[k], Delim)
    ensures EscapeCodec.Tokens(Prefix(front) + rest, Delim) == front + EscapeCodec.Tokens(rest, Delim)
    decreases |front|
  {
    if front == [] {
      assert Prefix(front) + rest == rest;
    } else {
      var tail := front[1..];
      var x := Prefix(tail) + rest;
      TokensAfterPlainFields(tail, rest);
      PrefixCons(front, rest);
      EscapeCodec.TokensSplitAtDelimiter(front[0], x, Delim);
      assert [front[0]] + (tail + EscapeCodec.Tokens(rest, Delim)) == front + EscapeCodec.Tokens(rest, Delim);
    }
  }

  lemma PrefixCons(front: seq<string>, rest: string)
    requires front != []
    ensures Prefix(front) + rest == front[0] + [Delim] + (Prefix(front[1..]) + rest)
  {
  }

  /// Each field followed by the delimiter.
  function Prefix(front: seq<string>): string
    decreases |front|
  {
    if front == [] then "" else front[0] + [Delim] + Prefix(front[1..])
  }

  /// Plain fields are sufficient but not necessary: a payload ending in a
  /// lone backslash also reads back, since a trailing backslash is kept.
  lemma TrailingBackslashSurvives(m: LogMessage, a: string)
    requires EscapeCodec.Plain(m.workflowInstanceId, Delim) && EscapeCodec.Plain(m.level, Delim)
    requires m.timestampMs <= RustInts.U128Max
    requires EscapeCodec.Plain(a, Delim) && m.payload == a + [EscapeCodec.Backslash]
    ensures ParseLogText(ToText(m)) == Ok(m)
  {
    var front := LogTokens(m)[..3];
    RustInts.DecimalDigits(m.timestampMs);
    RustInts.ParseDecimal(m.timestampMs, false, 0, RustInts.U128Max);
    assert front == [m.workflowInstanceId, RustInts.Decimal(m.timestampMs), m.level];
    TokensAfterPlainFields(front, m.payload);
    EscapeCodec.TokensOfTrailingBackslash(a, Delim);
    assert front + [m.payload] == LogTokens(m);
  }
}
