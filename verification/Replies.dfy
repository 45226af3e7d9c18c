/// Replies the principal sends back to a requester, and the request-error
/// texts (the api crate's `ClientResponseMessage` and `RepReqError`).
module Replies {
  import EscapeCodec
  import Strings

  /// The delimiter replies travel with.
  const Delim: char := EscapeCodec.Soh

  datatype RepReqError = ParseError(msg: string) | Unprocessable(msg: string) | ServerError(msg: string)

  function ErrorPrefix(e: RepReqError): string {
    match e
    case ParseError(_) => "PARSE ERROR: "
    case Unprocessable(_) => "UNPROCESSABLE: "
    case ServerError(_) => "SERVER ERROR: "
  }

  /// `RepReqError::to_string`: a prefix naming the kind, then the message.
  function ErrorText(e: RepReqError): (r: string)
    ensures |r| > |e.msg| && r[|r| - |e.msg|..] == e.msg
    ensures r[..|r| - |e.msg|] == ErrorPrefix(e)
  {
    ErrorPrefix(e) + e.msg
  }

  /// Different errors have different texts.
  lemma ErrorTextInjective(a: RepReqError, b: RepReqError)
    requires ErrorText(a) == ErrorText(b)
    ensures a == b
  {
    var t := ErrorText(a);
    var pa := ErrorPrefix(a);
    var pb := ErrorPrefix(b);
    assert t[..|pa|] == pa && t[..|pb|] == pb;
    assert t[0] == pa[0] == pb[0];
    assert t[1] == pa[1] == pb[1];
    assert pa == pb;
    assert a.msg == t[|pa|..] == b.msg;
  }

  datatype ClientResponseMessage =
    | ClientError(msg: string)
    | ServerError(msg: string)
    | Unprocessable(msg: string)
    | Pong
    | Success
    | SuccessWithPayload(msg: string)
    | NetworkError(msg: string)

  /// The keyword a reply starts with.
  function ReplyKeyword(m: ClientResponseMessage): string {
    match m
    case Pong => "PONG"
    case Success => "OK"
    case SuccessWithPayload(_) => "SUCCESS"
    case ClientError(_) => "CLIENTERROR"
    case ServerError(_) => "SERVERERROR"
    case Unprocessable(_) => "UNPROC"
    case NetworkError(_) => "NETWORKERROR"
  }

  /// `to_string`: the keyword, then (for replies with a payload) the delimiter
  /// and the payload, unescaped.
  function ToText(m: ClientResponseMessage): (s: string)
    ensures m.Pong? || m.Success? ==> s == ReplyKeyword(m)
    ensures !(m.Pong? || m.Success?) ==> s == ReplyKeyword(m) + [Delim] + m.msg
  {
    if m.Pong? || m.Success? then ReplyKeyword(m) else ReplyKeyword(m) + [Delim] + m.msg
  }

  /// `payload`: nothing for the two bare replies, the carried text otherwise.
  function Payload(m: ClientResponseMessage): (r: string)
    ensures m.Pong? || m.Success? ==> r == ""
    ensures !(m.Pong? || m.Success?) ==> r == m.msg
  {
    match m
    case Pong => ""
    case Success => ""
    case SuccessWithPayload(p) => p
    case ClientError(p) => p
    case ServerError(p) => p
    case Unprocessable(p) => p
    case NetworkError(p) => p
  }

  /// `From<ZmqMessage>` over the token list: the keyword picks the reply, and
  /// the remaining tokens are re-encoded as its payload.
  function FromTokens(toks: seq<string>): (r: ClientResponseMessage)
    ensures toks == [] ==> r == ClientError("Cannot work with an empty message")
    ensures !r.NetworkError?
    ensures (|toks| >= 1 && (r.ClientError? || r.ServerError? || r.Unprocessable? || r.SuccessWithPayload?) &&
             toks[0] == ReplyKeyword(r)) ==> r.msg == EscapeCodec.Encoded(toks[1..], Delim)
  {
    if toks == [] then ClientError("Cannot work with an empty message")
    else
      var rest := EscapeCodec.Encoded(toks[1..], Delim);
      match toks[0]
      case "CLIENTERROR" => ClientError(rest)
      case "SERVERERROR" => ClientResponseMessage.ServerError(rest)
      case "UNPROC" => ClientResponseMessage.Unprocessable(rest)
      case "PONG" => Pong
      case "OK" => Success
      case "SUCCESS" => SuccessWithPayload(rest)
      case _ => ClientError("Unrecognised message type: " + toks[0])
  }

  /// Reading a reply from text.
  function FromText(s: string): ClientResponseMessage {
    FromTokens(EscapeCodec.Tokens(s, Delim))
  }

  lemma KeywordPlain(m: ClientResponseMessage)
    ensures EscapeCodec.Plain(ReplyKeyword(m), Delim)
  {
    var k := ReplyKeyword(m);
    forall i | 0 <= i < |k| ensures k[i] != Delim && k[i] != EscapeCodec.Backslash {
      assert 'A' <= k[i] <= 'Z';
    }
  }

  /// A reply reads back as itself when its payload has no backslash; the
  /// payload may hold the delimiter, since the remaining tokens are re-joined.
  /// A network error is not a keyword the reader knows.
  lemma ReplyRoundTrip(m: ClientResponseMessage)
    requires !(m.Pong? || m.Success?) ==> Strings.Free(m.msg, EscapeCodec.Backslash)
    ensures !m.NetworkError? ==> FromText(ToText(m)) == m
    ensures m.NetworkError? ==> FromText(ToText(m)) == ClientError("Unrecognised message type: NETWORKERROR")
  {
    var k := ReplyKeyword(m);
    KeywordPlain(m);
    if m.Pong? || m.Success? {
      EscapeCodec.TokensOfPlainJoin([k], Delim);
      assert Strings.Join([k], [Delim]) == k;
      assert [k] == [k] + [];
      ReadKeyword(m, []);
    } else {
      EscapeCodec.TokensSplitAtDelimiter(k, m.msg, Delim);
      EscapeCodec.EncodedTokensBackslashFree(m.msg, Delim);
      ReadKeyword(m, EscapeCodec.Tokens(m.msg, Delim));
    }
  }

  /// Reading a reply's keyword followed by tokens that re-encode to its payload.
  lemma ReadKeyword(m: ClientResponseMessage, rest: seq<string>)
    requires !(m.Pong? || m.Success?) ==> EscapeCodec.Encoded(rest, Delim) == m.msg
    ensures !m.NetworkError? ==> FromTokens([ReplyKeyword(m)] + rest) == m
    ensures m.NetworkError? ==> FromTokens([ReplyKeyword(m)] + rest) == ClientError("Unrecognised message type: NETWORKERROR")
  {
    var toks := [ReplyKeyword(m)] + rest;
    assert toks[0] == ReplyKeyword(m) && toks[1..] == rest;
    if m.Pong? || m.Success? || m.NetworkError? {
      ReadBareKeyword(m, rest);
    } else {
      ReadPayloadKeyword(m, rest);
    }
  }

  /// The replies whose keyword the reader maps without a payload, and the
  /// network error, whose keyword it does not know.
  lemma ReadBareKeyword(m: ClientResponseMessage, rest: seq<string>)
    requires m.Pong? || m.Success? || m.NetworkError?
    ensures !m.NetworkError? ==> FromTokens([ReplyKeyword(m)] + rest) == m
    ensures m.NetworkError? ==> FromTokens([ReplyKeyword(m)] + rest) == ClientError("Unrecognised message type: NETWORKERROR")
  {
    var toks := [ReplyKeyword(m)] + rest;
    assert toks[0] == ReplyKeyword(m);
  }

  /// The replies that carry the re-encoded remaining tokens as their payload.
  lemma ReadPayloadKeyword(m: ClientResponseMessage, rest: seq<string>)
    requires m.SuccessWithPayload? || m.ClientError? || m.ServerError? || m.Unprocessable?
    requires EscapeCodec.Encoded(rest, Delim) == m.msg
    ensures FromTokens([ReplyKeyword(m)] + rest) == m
  {
    var toks := [ReplyKeyword(m)] + rest;
    assert toks[0] == ReplyKeyword(m) && toks[1..] == rest;
  }

  /// Text always holds at least one token, so the empty-message branch is
  /// never taken for text input; the empty text is an unknown keyword.
  lemma EmptyText()
    ensures FromText("") == ClientError("Unrecognised message type: ")
    ensures forall s :: FromText(s) == FromTokens(EscapeCodec.Tokens(s, Delim)) && |EscapeCodec.Tokens(s, Delim)| >= 1
  {
    EscapeCodec.EmptyListRoundTrip(Delim);
  }
}
