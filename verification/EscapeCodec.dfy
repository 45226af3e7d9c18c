/// The escape-aware tokenizer and encoder for delimiter-separated command
/// strings. A backslash escapes the delimiter and itself; the delimiter is a
/// parameter because one crate uses '|' and another '\x01'.
module EscapeCodec {
  import Strings

  const Backslash: char := '\\'
  /// The delimiter of the older crates.
  const Pipe: char := '|'
  /// The delimiter of the command API crate (ASCII start-of-heading, 0x01).
  const Soh: char := '\U{1}'

  /// The delimiter is never the escape character itself.
  predicate ValidDelim(d: char) { d != Backslash }

  /// Scanner state: a pending escape, the token being built and the finished tokens.
  datatype Scan = Scan(escaped: bool, current: string, tokens: seq<string>)

  const Start: Scan := Scan(false, "", [])

  /// One character of the tokenizer loop.
  function Step(st: Scan, ch: char, d: char): Scan {
    if st.escaped then
      if ch == d then Scan(false, st.current + [d], st.tokens)
      else Scan(false, st.current + [Backslash], st.tokens)
    else if ch == Backslash then Scan(true, st.current, st.tokens)
    else if ch == d then Scan(false, "", st.tokens + [st.current])
    else Scan(false, st.current + [ch], st.tokens)
  }

  /// The tokenizer loop over a whole string, left to right.
  function Run(st: Scan, s: string, d: char): Scan
    decreases |s|
  {
    if s == [] then st else Step(Run(st, s[..|s| - 1], d), s[|s| - 1], d)
  }

  /// After the loop: a pending escape keeps its backslash, and the last token is
  /// always emitted.
  function Finish(st: Scan): (r: seq<string>)
    ensures |r| == |st.tokens| + 1
  {
    st.tokens + [if st.escaped then st.current + [Backslash] else st.current]
  }

  /// The tokens `arg_str_to_vecd` produces for `s`.
  function Tokens(s: string, d: char): (r: seq<string>)
    ensures |r| >= 1
  {
    Finish(Run(Start, s, d))
  }

  /// The tokenizer as the source writes it: one pass with an escape flag.
  method Tokenize(s: string, d: char) returns (toks: seq<string>)
    ensures toks == Tokens(s, d)
    ensures |toks| >= 1
  {
    var fb := false;
    var cur := "";
    toks := [];
    var i := 0;
    while i < |s|
      invariant 0 <= i <= |s|
      invariant Run(Start, s[..i], d) == Scan(fb, cur, toks)
    {
      assert s[..i + 1][..i] == s[..i];
      var ch := s[i];
      if fb {
        if ch == d {
          cur := cur + [ch];
        } else {
          cur := cur + [Backslash];
        }
        fb := false;
      } else if ch == Backslash {
        fb := true;
      } else if ch == d {
        toks := toks + [cur];
        cur := "";
      } else {
        cur := cur + [ch];
      }
      i := i + 1;
    }
    assert s[..|s|] == s;
    if fb {
      cur := cur + [Backslash];
    }
    toks := toks + [cur];
  }

  /// One character as the encoder writes it.
  function EscapeChar(c: char, d: char): string {
    if c == d || c == Backslash then [Backslash, c] else [c]
  }

  /// A whole argument with every delimiter and backslash escaped.
  function Escape(a: string, d: char): string
    decreases |a|
  {
    if a == [] then [] else Escape(a[..|a| - 1], d) + EscapeChar(a[|a| - 1], d)
  }

  /// Every argument escaped and followed by one delimiter.
  function Framed(v: seq<string>, d: char): string
    decreases |v|
  {
    if v == [] then [] else Framed(v[..|v| - 1], d) + Escape(v[|v| - 1], d) + [d]
  }

  /// What `vecd_to_arg_str` produces: the framed arguments without the final
  /// delimiter (popping from an empty string leaves it empty).
  function Encoded(v: seq<string>, d: char): string {
    var f := Framed(v, d);
    if f == [] then [] else f[..|f| - 1]
  }

  /// The encoder as the source writes it: escape each character, append a
  /// delimiter after each argument, then drop the last character.
  method Encode(v: seq<string>, d: char) returns (s: string)
    ensures s == Encoded(v, d)
  {
    s := [];
    var k := 0;
    while k < |v|
      invariant 0 <= k <= |v|
      invariant s == Framed(v[..k], d)
    {
      assert v[..k + 1][..k] == v[..k];
      s := AppendEscaped(s, v[k], d);
      s := s + [d];
      k := k + 1;
    }
    assert v[..|v|] == v;
    if |s| > 0 {
      s := s[..|s| - 1];
    }
  }

  /// The inner loop of the encoder: one argument, escaped, appended to `s`.
  method AppendEscaped(s: string, arg: string, d: char) returns (r: string)
    ensures r == s + Escape(arg, d)
  {
    r := s;
    var j := 0;
    while j < |arg|
      invariant 0 <= j <= |arg|
      invariant r == s + Escape(arg[..j], d)
    {
      assert arg[..j + 1][..j] == arg[..j];
      var ch := arg[j];
      if ch == d || ch == Backslash {
        r := r + [Backslash];
      }
      r := r + [ch];
      j := j + 1;
    }
    assert arg[..|arg|] == arg;
  }

  /// Running over a concatenation is running over each part in turn.
  lemma {:induction false} RunAppend(st: Scan, a: string, b: string, d: char)
    ensures Run(st, a + b, d) == Run(Run(st, a, d), b, d)
    decreases |b|
  {
    if b == [] {
      assert a + b == a;
    } else {
      var b' := b[..|b| - 1];
      assert (a + b)[..|a + b| - 1] == a + b';
      assert (a + b)[|a + b| - 1] == b[|b| - 1];
      RunAppend(st, a, b', d);
    }
  }

  /// Chaining two runs: from `st` over `p` to `mid`, then over `q` to `end`.
  lemma RunThen(st: Scan, p: string, q: string, mid: Scan, end: Scan, d: char)
    requires Run(st, p, d) == mid && Run(mid, q, d) == end
    ensures Run(st, p + q, d) == end
  {
    RunAppend(st, p, q, d);
  }

  /// Running over one or two characters.
  lemma RunShort(st: Scan, x: char, y: char, d: char)
    ensures Run(st, [x], d) == Step(st, x, d)
    ensures Run(st, [x, y], d) == Step(Step(st, x, d), y, d)
  {
    assert [x][..0] == [];
    assert [x, y][..1] == [x];
  }

  /// The finished tokens are only ever extended: a run started with tokens `t`
  /// ends with `t` followed by what the same run from no tokens produces.
  lemma {:induction false} RunKeepsTokens(f: bool, c: string, t: seq<string>, s: string, d: char)
    ensures Run(Scan(f, c, t), s, d).escaped == Run(Scan(f, c, []), s, d).escaped
    ensures Run(Scan(f, c, t), s, d).current == Run(Scan(f, c, []), s, d).current
    ensures Run(Scan(f, c, t), s, d).tokens == t + Run(Scan(f, c, []), s, d).tokens
    decreases |s|
  {
    if s != [] {
      RunKeepsTokens(f, c, t, s[..|s| - 1], d);
    }
  }

  /// Scanning one escaped character appends it to the token being built.
  lemma RunEscapeChar(c: string, t: seq<string>, x: char, d: char)
    requires ValidDelim(d)
    ensures Run(Scan(false, c, t), EscapeChar(x, d), d) == Scan(false, c + [x], t)
  {
    RunShort(Scan(false, c, t), Backslash, x, d);
    RunShort(Scan(false, c, t), x, x, d);
  }

  /// Scanning an escaped argument appends exactly that argument to the token
  /// being built and leaves no escape pending.
  lemma {:induction false} RunEscape(c: string, t: seq<string>, w: string, d: char)
    requires ValidDelim(d)
    ensures Run(Scan(false, c, t), Escape(w, d), d) == Scan(false, c + w, t)
    decreases |w|
  {
    if w == [] {
      assert c + w == c;
    } else {
      var w' := w[..|w| - 1];
      var x := w[|w| - 1];
      assert c + w' + [x] == c + w;
      assert Escape(w, d) == Escape(w', d) + EscapeChar(x, d);
      RunAppend(Scan(false, c, t), Escape(w', d), EscapeChar(x, d), d);
      RunEscape(c, t, w', d);
      RunEscapeChar(c + w', t, x, d);
    }
  }

  /// Scanning one framed argument emits it as a token.
  lemma RunFrame(t: seq<string>, a: string, d: char)
    requires ValidDelim(d)
    ensures Run(Scan(false, "", t), Escape(a, d) + [d], d) == Scan(false, "", t + [a])
  {
    var st0 := Scan(false, "", t);
    RunAppend(st0, Escape(a, d), [d], d);
    RunEscape("", t, a, d);
    assert "" + a == a;
    RunShort(Scan(false, a, t), d, d, d);
  }

  /// Scanning framed arguments emits each of them as a token.
  lemma {:induction false} RunFramed(t: seq<string>, v: seq<string>, d: char)
    requires ValidDelim(d)
    ensures Run(Scan(false, "", t), Framed(v, d), d) == Scan(false, "", t + v)
    decreases |v|
  {
    if v == [] {
      assert t + v == t;
    } else {
      var v' := v[..|v| - 1];
      var a := v[|v| - 1];
      assert t + v' + [a] == t + v;
      var f := Framed(v', d);
      assert Framed(v, d) == f + (Escape(a, d) + [d]);
      RunFramed(t, v', d);
      RunFrame(t + v', a, d);
      RunThen(Scan(false, "", t), f, Escape(a, d) + [d], Scan(false, "", t + v'), Scan(false, "", t + v' + [a]), d);
    }
  }

  /// A non-empty list encodes as all but its last argument framed, then the
  /// last argument escaped.
  lemma EncodedSplit(v: seq<string>, d: char)
    requires |v| >= 1
    ensures Encoded(v, d) == Framed(v[..|v| - 1], d) + Escape(v[|v| - 1], d)
  {
    var f := Framed(v, d);
    assert f == Framed(v[..|v| - 1], d) + Escape(v[|v| - 1], d) + [d];
    assert f[..|f| - 1] == Framed(v[..|v| - 1], d) + Escape(v[|v| - 1], d);
  }

  /// Encoding a non-empty argument list and tokenizing it again gives the list
  /// back, whatever characters the arguments hold.
  lemma {:induction false} TokensOfEncoded(v: seq<string>, d: char)
    requires ValidDelim(d)
    requires |v| >= 1
    ensures Tokens(Encoded(v, d), d) == v
  {
    var v' := v[..|v| - 1];
    var a := v[|v| - 1];
    assert v' + [a] == v;
    EncodedSplit(v, d);
    RunFramed([], v', d);
    assert [] + v' == v';
    RunEscape("", v', a, d);
    assert "" + a == a;
    RunThen(Start, Framed(v', d), Escape(a, d), Scan(false, "", v'), Scan(false, a, v'), d);
  }

  /// The empty list encodes to the empty string, which tokenizes to one empty
  /// token, so the round trip needs a non-empty list.
  lemma EmptyListRoundTrip(d: char)
    ensures Encoded([], d) == ""
    ensures Tokens("", d) == [""]
  {
  }

  /// The encoding joins the escaped arguments with single delimiters and
  /// leaves no trailing delimiter.
  lemma {:induction false} EncodedJoins(v: seq<string>, a: string, d: char)
    ensures Encoded([a], d) == Escape(a, d)
    ensures |v| >= 1 ==> Encoded(v + [a], d) == Encoded(v, d) + [d] + Escape(a, d)
  {
    assert [a][..0] == [] && [a][|[a]| - 1] == a;
    assert Framed([], d) == [];
    var f1 := Framed([a], d);
    assert f1 == Escape(a, d) + [d];
    assert f1[..|f1| - 1] == Escape(a, d);
    if |v| >= 1 {
      var f := Framed(v, d);
      var g := Framed(v + [a], d);
      assert (v + [a])[..|v + [a]| - 1] == v;
      assert g == f + Escape(a, d) + [d];
      assert |f| >= 1 by {
        assert f == Framed(v[..|v| - 1], d) + Escape(v[|v| - 1], d) + [d];
      }
      assert g[..|g| - 1] == f[..|f| - 1] + [d] + Escape(a, d) by {
        assert f == f[..|f| - 1] + [d];
      }
    }
  }

  /// Characters that are neither the delimiter nor a backslash.
  predicate Plain(a: string, d: char) {
    forall i :: 0 <= i < |a| ==> a[i] != d && a[i] != Backslash
  }

  /// Plain text is copied into the current token unchanged.
  lemma {:induction false} RunPlain(c: string, t: seq<string>, a: string, d: char)
    requires Plain(a, d)
    ensures Run(Scan(false, c, t), a, d) == Scan(false, c + a, t)
    decreases |a|
  {
    if a == [] {
      assert c + a == c;
    } else {
      RunPlain(c, t, a[..|a| - 1], d);
      assert c + a[..|a| - 1] + [a[|a| - 1]] == c + a;
    }
  }

  /// An unescaped delimiter ends the current token.
  lemma TokensSplitAtDelimiter(a: string, b: string, d: char)
    requires ValidDelim(d) && Plain(a, d)
    ensures Tokens(a + [d] + b, d) == [a] + Tokens(b, d)
  {
    assert Start == Scan(false, "", []);
    RunAppend(Start, a + [d], b, d);
    RunAppend(Start, a, [d], d);
    RunPlain("", [], a, d);
    assert "" + a == a;
    RunShort(Scan(false, a, []), d, d, d);
    assert Run(Start, a + [d], d) == Scan(false, "", [a]);
    RunKeepsTokens(false, "", [a], b, d);
  }

  /// A backslash before the delimiter yields the delimiter; before any other
  /// character it yields one backslash and that character is dropped.
  lemma TokensOfEscape(a: string, c: char, d: char)
    requires Plain(a, d)
    ensures Tokens(a + [Backslash, c], d) == [a + [if c == d then d else Backslash]]
  {
    RunAppend(Start, a, [Backslash, c], d);
    RunPlain("", [], a, d);
    assert "" + a == a;
    RunShort(Scan(false, a, []), Backslash, c, d);
  }

  /// A trailing lone backslash is kept in the last token.
  lemma TokensOfTrailingBackslash(a: string, d: char)
    requires Plain(a, d)
    ensures Tokens(a + [Backslash], d) == [a + [Backslash]]
  {
    RunAppend(Start, a, [Backslash], d);
    RunPlain("", [], a, d);
    assert "" + a == a;
    RunShort(Scan(false, a, []), Backslash, Backslash, d);
  }

  /// Plain text needs no escaping.
  lemma {:induction false} EscapePlain(a: string, d: char)
    requires Plain(a, d)
    ensures Escape(a, d) == a
    decreases |a|
  {
    if a != [] {
      EscapePlain(a[..|a| - 1], d);
      assert a[..|a| - 1] + [a[|a| - 1]] == a;
    }
  }

  /// One more plain argument extends both the encoding and the join by the
  /// delimiter and that argument.
  lemma EncodedPlainStep(init: seq<string>, last: string, d: char)
    requires |init| >= 1 && Plain(last, d)
    requires Encoded(init, d) == Strings.Join(init, [d])
    ensures Encoded(init + [last], d) == Strings.Join(init + [last], [d])
  {
    EncodedJoins(init, last, d);
    EscapePlain(last, d);
    Strings.JoinSnoc(init, last, [d]);
  }

  /// For plain arguments the encoding is a plain join with the delimiter.
  lemma {:induction false} EncodedPlain(v: seq<string>, d: char)
    requires forall k :: 0 <= k < |v| ==> Plain(v[k], d)
    ensures Encoded(v, d) == Strings.Join(v, [d])
    decreases |v|
  {
    if |v| == 1 {
      EncodedJoins([], v[0], d);
      EscapePlain(v[0], d);
      assert [v[0]] == v;
    } else if |v| > 1 {
      var init := v[..|v| - 1];
      var last := v[|v| - 1];
      assert init + [last] == v;
      EncodedPlain(init, d);
      EncodedPlainStep(init, last, d);
    }
  }

  /// Joining plain arguments with the delimiter and tokenizing gives them back.
  lemma TokensOfPlainJoin(v: seq<string>, d: char)
    requires ValidDelim(d) && |v| >= 1
    requires forall k :: 0 <= k < |v| ==> Plain(v[k], d)
    ensures Tokens(Strings.Join(v, [d]), d) == v
  {
    EncodedPlain(v, d);
    TokensOfEncoded(v, d);
  }

  /// Without backslashes the tokenizer is a plain split on the delimiter.
  lemma {:induction false} RunBackslashFree(s: string, d: char)
    requires ValidDelim(d) && Strings.Free(s, Backslash)
    ensures var p := Strings.Split(s, d);
      Run(Start, s, d) == Scan(false, p[|p| - 1], p[..|p| - 1])
    decreases |s|
  {
    if s != [] {
      RunBackslashFree(s[..|s| - 1], d);
      var init := Strings.Split(s[..|s| - 1], d);
      assert (init + [""])[..|init|] == init;
    }
  }

  /// A string with no backslash survives tokenizing and encoding unchanged
  /// (building the argument queue from text and printing it back).
  lemma EncodedTokensBackslashFree(s: string, d: char)
    requires ValidDelim(d) && Strings.Free(s, Backslash)
    ensures Tokens(s, d) == Strings.Split(s, d)
    ensures Encoded(Tokens(s, d), d) == s
  {
    RunBackslashFree(s, d);
    var p := Strings.Split(s, d);
    assert p[..|p| - 1] + [p[|p| - 1]] == p;
    Strings.SplitCount(s, d);
    Strings.SplitKeepsFree(s, d, Backslash);
    EncodedPlain(p, d);
    Strings.JoinSplit(s, d);
  }
}
