/// The standard-library string operations the core relies on: joining with a
/// separator and splitting on a character, as Rust's `join` and `split` do.
module Strings {
  /// `parts.join(sep)`: the parts with one separator between neighbours.
  function Join(parts: seq<string>, sep: string): string
    decreases |parts|
  {
    if parts == [] then ""
    else if |parts| == 1 then parts[0]
    else Join(parts[..|parts| - 1], sep) + sep + parts[|parts| - 1]
  }

  /// `s.split(c)`: the pieces between occurrences of `c`; an empty string gives
  /// one empty piece.
  function Split(s: string, c: char): (r: seq<string>)
    ensures |r| >= 1
    decreases |s|
  {
    if s == [] then [""]
    else
      var init := Split(s[..|s| - 1], c);
      if s[|s| - 1] == c then init + [""]
      else init[..|init| - 1] + [init[|init| - 1] + [s[|s| - 1]]]
  }

  /// How many times `c` occurs in `s`.
  function Count(s: string, c: char): nat
    decreases |s|
  {
    if s == [] then 0 else Count(s[..|s| - 1], c) + (if s[|s| - 1] == c then 1 else 0)
  }

  predicate Free(s: string, c: char) {
    forall i :: 0 <= i < |s| ==> s[i] != c
  }

  lemma FreeAppend(a: string, b: string, c: char)
    requires Free(a, c) && Free(b, c)
    ensures Free(a + b, c)
  {
    forall i | 0 <= i < |a + b| ensures (a + b)[i] != c {
      if i < |a| {
        assert (a + b)[i] == a[i];
      } else {
        assert (a + b)[i] == b[i - |a|];
      }
    }
  }

  /// Splitting yields one more piece than there are separators, and no piece
  /// contains the separator.
  lemma {:induction false} SplitCount(s: string, c: char)
    ensures |Split(s, c)| == Count(s, c) + 1
    ensures forall k :: 0 <= k < |Split(s, c)| ==> Free(Split(s, c)[k], c)
    decreases |s|
  {
    if s != [] {
      SplitCount(s[..|s| - 1], c);
    }
  }

  /// Joining one more part adds a separator and the part.
  lemma JoinSnoc(parts: seq<string>, p: string, sep: string)
    requires |parts| >= 1
    ensures Join(parts + [p], sep) == Join(parts, sep) + sep + p
  {
    assert (parts + [p])[..|parts|] == parts;
  }

  /// Extending the last part extends the joined string.
  lemma JoinExtendLast(parts: seq<string>, x: char, sep: string)
    requires |parts| >= 1
    ensures Join(parts[..|parts| - 1] + [parts[|parts| - 1] + [x]], sep) == Join(parts, sep) + [x]
  {
    var n := |parts|;
    if n == 1 {
      assert parts[..0] + [parts[0] + [x]] == [parts[0] + [x]];
    } else {
      var init := parts[..n - 1];
      assert init + [parts[n - 1]] == parts;
      JoinSnoc(init, parts[n - 1], sep);
      JoinSnoc(init, parts[n - 1] + [x], sep);
    }
  }

  /// Joining the pieces with the separator gives the string back.
  lemma {:induction false} JoinSplit(s: string, c: char)
    ensures Join(Split(s, c), [c]) == s
    decreases |s|
  {
    if s != [] {
      var s' := s[..|s| - 1];
      var init := Split(s', c);
      JoinSplit(s', c);
      var x := s[|s| - 1];
      assert s == s' + [x];
      if x == c {
        JoinSnoc(init, "", [c]);
      } else {
        JoinExtendLast(init, x, [c]);
      }
    }
  }

  /// Joining separator-free pieces and splitting again gives the pieces back.
  lemma {:induction false} SplitJoin(parts: seq<string>, c: char)
    requires |parts| >= 1
    requires forall k :: 0 <= k < |parts| ==> Free(parts[k], c)
    ensures Split(Join(parts, [c]), c) == parts
    decreases |parts|
  {
    if |parts| == 1 {
      SplitFree(parts[0], c);
    } else {
      var init := parts[..|parts| - 1];
      var last := parts[|parts| - 1];
      SplitJoin(init, c);
      SplitAppend(Join(init, [c]), last, c);
      assert init + [last] == parts;
    }
  }

  /// A separator-free string is one piece.
  lemma {:induction false} SplitFree(s: string, c: char)
    requires Free(s, c)
    ensures Split(s, c) == [s]
    decreases |s|
  {
    if s != [] {
      SplitFree(s[..|s| - 1], c);
      assert s[..|s| - 1] + [s[|s| - 1]] == s;
    }
  }

  /// Appending a separator and a separator-free string adds one piece.
  lemma {:induction false} SplitAppend(s: string, w: string, c: char)
    requires Free(w, c)
    ensures Split(s + [c] + w, c) == Split(s, c) + [w]
    decreases |w|
  {
    if w == [] {
      assert (s + [c] + w)[..|s + [c] + w| - 1] == s;
    } else {
      var w' := w[..|w| - 1];
      SplitAppend(s, w', c);
      assert (s + [c] + w)[..|s + [c] + w| - 1] == s + [c] + w';
      var init := Split(s + [c] + w', c);
      assert init == Split(s, c) + [w'];
      assert w' + [w[|w| - 1]] == w;
      assert init[..|init| - 1] == Split(s, c);
    }
  }

  /// Every piece of a split is made of characters of the original string, so a
  /// character absent from the string is absent from every piece.
  lemma {:induction false} SplitKeepsFree(s: string, c: char, b: char)
    requires Free(s, b)
    ensures forall k :: 0 <= k < |Split(s, c)| ==> Free(Split(s, c)[k], b)
    decreases |s|
  {
    if s != [] {
      SplitKeepsFree(s[..|s| - 1], c, b);
    }
  }

  /// A string that is not free of `c` contains it at least once.
  lemma {:induction false} CountPositive(s: string, c: char)
    requires !Free(s, c)
    ensures Count(s, c) >= 1
    decreases |s|
  {
    if s[|s| - 1] != c {
      var s' := s[..|s| - 1];
      assert !Free(s', c) by {
        var i :| 0 <= i < |s| && s[i] == c;
        assert s'[i] == c;
      }
      CountPositive(s', c);
    }
  }

  /// A part in front of a non-empty join is followed by one separator.
  lemma {:induction false} JoinCons(a: string, v: seq<string>, sep: string)
    requires |v| >= 1
    ensures Join([a] + v, sep) == a + sep + Join(v, sep)
    decreases |v|
  {
    var w := [a] + v;
    if |v| == 1 {
      assert w[..1] == [a];
    } else {
      var init := v[..|v| - 1];
      JoinCons(a, init, sep);
      assert w[..|w| - 1] == [a] + init;
      assert w[|w| - 1] == v[|v| - 1];
    }
  }
}
