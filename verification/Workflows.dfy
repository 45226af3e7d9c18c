/// Workflow ids and store keys derived from file paths.
module Workflows {
  import opened Wrappers
  import opened Errors
  import Strings
  import Graphs

  // ---------------------------------------------------------------------
  // File names and paths
  // ---------------------------------------------------------------------

  /// The index of the last '.' in `s`, if any.
  function LastDot(s: string): (r: Option<nat>)
    ensures r.Some? ==> r.value < |s| && s[r.value] == '.' && forall k :: r.value < k < |s| ==> s[k] != '.'
    ensures r.None? ==> forall k :: 0 <= k < |s| ==> s[k] != '.'
    decreases |s|
  {
    if s == [] then None
    else if s[|s| - 1] == '.' then Some(|s| - 1)
    else LastDot(s[..|s| - 1])
  }

  lemma LastDotIs(s: string, i: nat)
    requires i < |s| && s[i] == '.' && forall k :: i < k < |s| ==> s[k] != '.'
    ensures LastDot(s) == Some(i)
  {
    assert s[i] == '.';
  }

  /// The file-stem rule applied when an extension is removed: a name with no
  /// dot, or whose only dot is its first character, is kept whole; otherwise
  /// everything from the last dot on is dropped. `..` has no file name and is
  /// kept.
  function FileStem(name: string): (r: string)
    ensures |r| <= |name| && r == name[..|r|]
    ensures r != name ==> |r| >= 1 && name[|r|] == '.' && forall k :: |r| < k < |name| ==> name[k] != '.'
    ensures r == name ==> name == ".." || forall k :: 1 <= k < |name| ==> name[k] != '.'
  {
    if name == ".." then name
    else
      match LastDot(name)
      case None => name
      case Some(i) => if i == 0 then name else name[..i]
  }

  /// `key_from_path` over path components: the components below the workflow
  /// directory, the last without its extension, joined by '.'. `None` stands
  /// for the panic when the path does not lie under the directory.
  function KeyFromPath(path: seq<string>, dir: seq<string>): (r: Option<string>)
    ensures r.None? <==> !(|dir| <= |path| && path[..|dir|] == dir)
    ensures r.Some? && |path| == |dir| ==> r.value == ""
  {
    if |dir| <= |path| && path[..|dir|] == dir then
      var rel := path[|dir|..];
      if rel == [] then Some("")
      else Some(Strings.Join(rel[..|rel| - 1] + [FileStem(rel[|rel| - 1])], "."))
    else None
  }

  /// `/some/absolute/path/example.file` under `/some/absolute` has the key
  /// `path.example`.
  lemma KeyFromPathExample()
    ensures KeyFromPath(["/", "some", "absolute", "path", "example.file"], ["/", "some", "absolute"]) == Some("path.example")
  {
    var path := ["/", "some", "absolute", "path", "example.file"];
    var rel := path[3..];
    assert rel == ["path", "example.file"];
    var name := "example.file";
    assert name == "example" + "." + "file";
    LastDotIs(name, 7);
    assert FileStem(name) == name[..7] == "example";
    assert rel[..|rel| - 1] + [FileStem(rel[|rel| - 1])] == ["path", "example"];
    var parts := ["path", "example"];
    assert parts[..1] == ["path"];
    assert Strings.Join(parts, ".") == "path" + "." + "example" == "path.example";
  }

  /// The capture of `^(.+)\.[^.]+$`: a non-empty stem without line breaks,
  /// a dot, and a non-empty extension without dots.
  predicate MatchShape(path: string, stem: string, ext: string) {
    path == stem + "." + ext && |stem| >= 1 && ext != [] &&
    Strings.Free(ext, '.') && Strings.Free(stem, '\n')
  }

  function RegexStem(path: string): Option<string> {
    match LastDot(path)
    case None => None
    case Some(i) =>
      if 1 <= i < |path| - 1 && forall k :: 0 <= k < i ==> path[k] != '\n' then Some(path[..i]) else None
  }

  /// The regular expression matches exactly the paths of that shape, and its
  /// capture is the stem.
  lemma RegexStemIff(path: string, stem: string, ext: string)
    ensures MatchShape(path, stem, ext) ==> RegexStem(path) == Some(stem)
    ensures RegexStem(path) == Some(stem) ==> MatchShape(path, stem, path[|stem| + 1..])
  {
    if MatchShape(path, stem, ext) {
      var i := |stem|;
      assert path[i] == '.';
      forall k | i < k < |path| ensures path[k] != '.' {
        assert path[k] == ext[k - i - 1];
      }
      LastDotIs(path, i);
      forall k | 0 <= k < i ensures path[k] != '\n' {
        assert path[k] == stem[k];
      }
      assert path[..i] == stem;
    }
    if RegexStem(path) == Some(stem) {
      var i := LastDot(path).value;
      assert path == stem + "." + path[i + 1..];
    }
  }

  /// Rust's `s.replace(pat, "")`: occurrences are found from the left without
  /// overlapping; an empty pattern changes nothing.
  function RemoveAll(s: string, pat: string): (r: string)
    ensures |r| <= |s|
    decreases |s|
  {
    if pat == [] || |s| < |pat| then s
    else if s[..|pat|] == pat then RemoveAll(s[|pat|..], pat)
    else [s[0]] + RemoveAll(s[1..], pat)
  }

  /// Text lacking one of the pattern's characters is left as it is.
  lemma {:induction false} RemoveAllMissing(s: string, pat: string, j: nat)
    requires j < |pat| && Strings.Free(s, pat[j])
    ensures RemoveAll(s, pat) == s
    decreases |s|
  {
    if |s| >= |pat| {
      assert s[..|pat|] != pat by {
        assert s[..|pat|][j] == s[j];
      }
      RemoveAllMissing(s[1..], pat, j);
      assert s == [s[0]] + s[1..];
    }
  }

  predicate IsLeading(c: char) {
    c == '/' || c == '.'
  }

  /// The text left once leading '/' and '.' characters are removed.
  function LeadingTrimmed(s: string): (r: string)
    decreases |s|
  {
    if s != [] && IsLeading(s[0]) then LeadingTrimmed(s[1..]) else s
  }

  /// What was removed is a run of '/' and '.', and what is left does not start
  /// with either.
  lemma {:induction false} LeadingTrimmedSplit(s: string)
    ensures var r := LeadingTrimmed(s);
      |r| <= |s| && s[|s| - |r|..] == r &&
      (forall k :: 0 <= k < |s| - |r| ==> IsLeading(s[k])) &&
      (r == [] || !IsLeading(r[0]))
    decreases |s|
  {
    if s != [] && IsLeading(s[0]) {
      LeadingTrimmedSplit(s[1..]);
      var r := LeadingTrimmed(s);
      assert s[|s| - |r|..] == s[1..][|s[1..]| - |r|..];
      forall k | 0 <= k < |s| - |r| ensures IsLeading(s[k]) {
        if k > 0 {
          assert s[k] == s[1..][k - 1];
        }
      }
    }
  }

  /// The `while` loop that removes leading '/' and '.' characters one at a time.
  method StripLeading(s: string) returns (r: string)
    ensures r == LeadingTrimmed(s)
  {
    r := s;
    while r != [] && IsLeading(r[0])
      invariant LeadingTrimmed(r) == LeadingTrimmed(s)
      decreases |r|
    {
      r := r[1..];
    }
  }

  predicate IsSeparator(c: char) {
    c == '/' || c == '\\'
  }

  /// `replace(['/', '\\'], ".")`: each path separator becomes a dot.
  function DotSeparators(s: string): (r: string)
    ensures |r| == |s|
    ensures forall k :: 0 <= k < |s| ==> !IsSeparator(r[k])
    ensures forall k :: 0 <= k < |s| && !IsSeparator(s[k]) ==> r[k] == s[k]
    ensures forall k :: 0 <= k < |s| && IsSeparator(s[k]) ==> r[k] == '.'
  {
    seq(|s|, k requires 0 <= k < |s| => if IsSeparator(s[k]) then '.' else s[k])
  }

  lemma DotSeparatorsAppend(a: string, b: string)
    ensures DotSeparators(a + b) == DotSeparators(a) + DotSeparators(b)
  {
  }

  lemma DotSeparatorsFree(s: string)
    requires Strings.Free(s, '/') && Strings.Free(s, '\\')
    ensures DotSeparators(s) == s
  {
  }

  function BadPathMessage(path: string): string {
    "Failed to create a workflow id for the path: " + path + ". Invalid file path or name."
  }

  /// `path_to_workflow_id` as a value: the regex capture with every occurrence
  /// of the workflow directory removed, leading '/' and '.' stripped, and the
  /// separators turned into dots.
  function WorkflowId(path: string, workflowDir: string): Result<string, GenericError> {
    match RegexStem(path)
    case None => Err(ParseError(BadPathMessage(path)))
    case Some(stem) => Ok(DotSeparators(LeadingTrimmed(RemoveAll(stem, workflowDir))))
  }

  /// `path_to_workflow_id`, with the configured workflow directory passed in.
  method PathToWorkflowId(path: string, workflowDir: string) returns (r: Result<string, GenericError>)
    ensures r == WorkflowId(path, workflowDir)
  {
    match RegexStem(path)
    case None =>
      r := Err(ParseError(BadPathMessage(path)));
    case Some(stem) =>
      var s := RemoveAll(stem, workflowDir);
      s := StripLeading(s);
      r := Ok(DotSeparators(s));
  }

  /// A path yields an id exactly when it has the `stem.ext` shape; the id
  /// then holds no path separator and is no longer than the stem.
  lemma WorkflowIdShape(path: string, workflowDir: string)
    ensures WorkflowId(path, workflowDir).Ok? <==> RegexStem(path).Some?
    ensures WorkflowId(path, workflowDir).Err? ==> WorkflowId(path, workflowDir).error == ParseError(BadPathMessage(path))
    ensures WorkflowId(path, workflowDir).Ok? ==>
      var id := WorkflowId(path, workflowDir).value;
      |id| < |path| && forall k :: 0 <= k < |id| ==> !IsSeparator(id[k])
  {
    match RegexStem(path)
    case None =>
    case Some(stem) =>
      var s := RemoveAll(stem, workflowDir);
      LeadingTrimmedSplit(s);
  }

  /// A path without an extension has no id.
  lemma NoExtensionIsRejected(path: string, workflowDir: string)
    requires Strings.Free(path, '.')
    ensures WorkflowId(path, workflowDir) == Err(ParseError(BadPathMessage(path)))
  {
  }

  lemma WorkflowIdOfShape(path: string, stem: string, ext: string, workflowDir: string)
    requires MatchShape(path, stem, ext)
    ensures WorkflowId(path, workflowDir) == Ok(DotSeparators(LeadingTrimmed(RemoveAll(stem, workflowDir))))
  {
    RegexStemIff(path, stem, ext);
  }

  /// Characters absent from a literal text, checked in two halves.
  lemma LacksChars(a: string, b: string, cs: seq<char>)
    requires forall i :: 0 <= i < |cs| ==> Strings.Free(a, cs[i]) && Strings.Free(b, cs[i])
    ensures forall i :: 0 <= i < |cs| ==> Strings.Free(a + b, cs[i])
  {
    forall i | 0 <= i < |cs| ensures Strings.Free(a + b, cs[i]) {
      Strings.FreeAppend(a, b, cs[i]);
    }
  }

  lemma DraftChars()
    ensures forall c :: c in "\n/\\s" ==> Strings.Free("myworkflow.draft", c)
  {
    var cs := "\n/\\s";
    assert forall i :: 0 <= i < |cs| ==> Strings.Free("myworkfl", cs[i]) && Strings.Free("ow.draft", cs[i]);
    LacksChars("myworkfl", "ow.draft", cs);
    assert "myworkfl" + "ow.draft" == "myworkflow.draft";
  }

  /// The documented examples, with the default workflow directory `workflows`.
  lemma WorkflowIdDraftExample(path: string, dir: string)
    requires path == "myworkflow.draft.yml" && dir == "workflows"
    ensures WorkflowId(path, dir) == Ok("myworkflow.draft")
  {
    var stem := "myworkflow.draft";
    DraftChars();
    assert "\n/\\s"[0] == '\n' && "\n/\\s"[1] == '/' && "\n/\\s"[2] == '\\' && "\n/\\s"[3] == 's';
    assert path == stem + "." + "yml";
    WorkflowIdOfShape(path, stem, "yml", dir);
    RemoveAllMissing(stem, dir, 8);
    assert LeadingTrimmed(stem) == stem;
    DotSeparatorsFree(stem);
  }

  lemma {:induction false} JoinFree(parts: seq<string>, sep: string, c: char)
    requires forall i :: 0 <= i < |parts| ==> Strings.Free(parts[i], c)
    requires Strings.Free(sep, c)
    ensures Strings.Free(Strings.Join(parts, sep), c)
    decreases |parts|
  {
    if |parts| > 1 {
      var init := parts[..|parts| - 1];
      JoinFree(init, sep, c);
      Strings.FreeAppend(Strings.Join(init, sep), sep, c);
      Strings.FreeAppend(Strings.Join(init, sep) + sep, parts[|parts| - 1], c);
    }
  }

  lemma {:induction false} JoinHead(parts: seq<string>, sep: string)
    requires |parts| >= 1 && parts[0] != []
    ensures |Strings.Join(parts, sep)| > 0 && Strings.Join(parts, sep)[0] == parts[0][0]
    decreases |parts|
  {
    if |parts| > 1 {
      var init := parts[..|parts| - 1];
      assert init[0] == parts[0];
      JoinHead(init, sep);
    }
  }

  /// Components joined by one kind of separator come out joined by dots.
  lemma {:induction false} DotSeparatorsJoin(parts: seq<string>, sep: char)
    requires IsSeparator(sep)
    requires forall i :: 0 <= i < |parts| ==> Strings.Free(parts[i], '/') && Strings.Free(parts[i], '\\')
    ensures DotSeparators(Strings.Join(parts, [sep])) == Strings.Join(parts, ".")
    decreases |parts|
  {
    if |parts| == 1 {
      DotSeparatorsFree(parts[0]);
    } else if |parts| > 1 {
      var init := parts[..|parts| - 1];
      var last := parts[|parts| - 1];
      DotSeparatorsJoin(init, sep);
      DotSeparatorsFree(last);
      DotSeparatorsAppend(Strings.Join(init, [sep]), [sep]);
      DotSeparatorsAppend(Strings.Join(init, [sep]) + [sep], last);
      assert DotSeparators([sep]) == ".";
    }
  }

  /// A relative path of separator-free components with an extension: the id
  /// is the components joined by dots, whichever separator the path uses.
  /// The directory has a character that occurs in no component.
  lemma WorkflowIdOfComponents(parts: seq<string>, sep: char, ext: string, dir: string, j: nat)
    requires IsSeparator(sep) && |parts| >= 1 && parts[0] != [] && !IsLeading(parts[0][0])
    requires forall i :: 0 <= i < |parts| ==>
      Strings.Free(parts[i], '/') && Strings.Free(parts[i], '\\') && Strings.Free(parts[i], '\n')
    requires j < |dir| && dir[j] != sep && forall i :: 0 <= i < |parts| ==> Strings.Free(parts[i], dir[j])
    requires ext != [] && Strings.Free(ext, '.')
    ensures WorkflowId(Strings.Join(parts, [sep]) + "." + ext, dir) == Ok(Strings.Join(parts, "."))
  {
    var stem := Strings.Join(parts, [sep]);
    JoinFree(parts, [sep], '\n');
    JoinFree(parts, [sep], dir[j]);
    JoinHead(parts, [sep]);
    WorkflowIdOfShape(stem + "." + ext, stem, ext, dir);
    RemoveAllMissing(stem, dir, j);
    DotSeparatorsJoin(parts, sep);
  }

  /// The same components after a leading '/': the root is stripped.
  lemma WorkflowIdOfAbsolutePath(parts: seq<string>, ext: string, dir: string, j: nat)
    requires |parts| >= 1 && parts[0] != [] && !IsLeading(parts[0][0])
    requires forall i :: 0 <= i < |parts| ==>
      Strings.Free(parts[i], '/') && Strings.Free(parts[i], '\\') && Strings.Free(parts[i], '\n')
    requires j < |dir| && dir[j] != '/' && forall i :: 0 <= i < |parts| ==> Strings.Free(parts[i], dir[j])
    requires ext != [] && Strings.Free(ext, '.')
    ensures WorkflowId("/" + Strings.Join(parts, "/") + "." + ext, dir) == Ok(Strings.Join(parts, "."))
  {
    var joined := Strings.Join(parts, "/");
    var stem := "/" + joined;
    JoinFree(parts, "/", '\n');
    JoinFree(parts, "/", dir[j]);
    Strings.FreeAppend("/", joined, '\n');
    Strings.FreeAppend("/", joined, dir[j]);
    JoinHead(parts, "/");
    assert stem + "." + ext == "/" + joined + "." + ext;
    WorkflowIdOfShape(stem + "." + ext, stem, ext, dir);
    RemoveAllMissing(stem, dir, j);
    assert stem[1..] == joined;
    assert LeadingTrimmed(stem) == joined;
    DotSeparatorsJoin(parts, '/');
  }

  /// A root written with a backslash is not stripped, so the id then starts
  /// with a dot.
  lemma BackslashRootKeepsDot(parts: seq<string>, ext: string, dir: string, j: nat)
    requires |parts| >= 1 && parts[0] != []
    requires forall i :: 0 <= i < |parts| ==>
      Strings.Free(parts[i], '/') && Strings.Free(parts[i], '\\') && Strings.Free(parts[i], '\n')
    requires j < |dir| && dir[j] != '\\' && forall i :: 0 <= i < |parts| ==> Strings.Free(parts[i], dir[j])
    requires ext != [] && Strings.Free(ext, '.')
    ensures WorkflowId("\\" + Strings.Join(parts, "\\") + "." + ext, dir) == Ok("." + Strings.Join(parts, "."))
  {
    var joined := Strings.Join(parts, "\\");
    var stem := "\\" + joined;
    JoinFree(parts, "\\", '\n');
    JoinFree(parts, "\\", dir[j]);
    Strings.FreeAppend("\\", joined, '\n');
    Strings.FreeAppend("\\", joined, dir[j]);
    assert stem + "." + ext == "\\" + joined + "." + ext;
    WorkflowIdOfShape(stem + "." + ext, stem, ext, dir);
    RemoveAllMissing(stem, dir, j);
    assert LeadingTrimmed(stem) == stem;
    DotSeparatorsJoin(parts, '\\');
    DotSeparatorsAppend("\\", joined);
    assert DotSeparators("\\") == ".";
  }

  lemma JoinThree(a: string, b: string, c: string, sep: string)
    ensures Strings.Join([a, b, c], sep) == a + sep + b + sep + c
  {
    var parts := [a, b, c];
    assert parts[..2] == [a, b] && [a, b][..1] == [a];
    assert Strings.Join([a], sep) == a;
    assert Strings.Join([a, b], sep) == a + sep + b;
  }

  lemma JoinFour(a: string, b: string, c: string, d: string, sep: string)
    ensures Strings.Join([a, b, c, d], sep) == a + sep + b + sep + c + sep + d
  {
    var parts := [a, b, c, d];
    assert parts[..3] == [a, b, c];
    JoinThree(a, b, c, sep);
  }

  /// The Unix example path and its expected id, as joins of the components.
  lemma UnixExampleShape()
    ensures "/home/user/data_flow.yml" == "/" + Strings.Join(["home", "user", "data_flow"], "/") + "." + "yml"
    ensures "home.user.data_flow" == Strings.Join(["home", "user", "data_flow"], ".")
  {
    JoinThree("home", "user", "data_flow", "/");
    JoinThree("home", "user", "data_flow", ".");
  }

  /// `/home/user/data_flow.yml` gives `home.user.data_flow`.
  lemma WorkflowIdUnixExample(path: string, dir: string)
    requires path == "/home/user/data_flow.yml" && dir == "workflows"
    ensures WorkflowId(path, dir) == Ok("home.user.data_flow")
  {
    UnixExampleShape();
    assert dir[3] == 'k';
    WorkflowIdOfAbsolutePath(["home", "user", "data_flow"], "yml", dir, 3);
  }

  /// The Windows example path, as a join of its components.
  lemma WindowsExamplePath()
    ensures "C:\\Users\\me\\notes.final.yml" == Strings.Join(["C:", "Users", "me", "notes.final"], "\\") + "." + "yml"
  {
    JoinFour("C:", "Users", "me", "notes.final", "\\");
  }

  /// The Windows example's expected id, as a join of the components.
  lemma WindowsExampleId()
    ensures "C:.Users.me.notes.final" == Strings.Join(["C:", "Users", "me", "notes.final"], ".")
  {
    JoinFour("C:", "Users", "me", "notes.final", ".");
  }

  /// The Windows example's components hold no separator, no line break and
  /// no 'k'.
  lemma WindowsExampleParts(parts: seq<string>)
    requires parts == ["C:", "Users", "me", "notes.final"]
    ensures forall i :: 0 <= i < |parts| ==>
      Strings.Free(parts[i], '/') && Strings.Free(parts[i], '\\') && Strings.Free(parts[i], '\n') && Strings.Free(parts[i], 'k')
  {
    forall i | 0 <= i < |parts|
      ensures Strings.Free(parts[i], '/') && Strings.Free(parts[i], '\\') && Strings.Free(parts[i], '\n') && Strings.Free(parts[i], 'k')
    {
      assert parts[i] in ["C:", "Users", "me", "notes.final"];
    }
  }

  /// `C:\Users\me\notes.final.yml` gives `C:.Users.me.notes.final`.
  lemma WorkflowIdWindowsExample(path: string, dir: string)
    requires path == "C:\\Users\\me\\notes.final.yml" && dir == "workflows"
    ensures WorkflowId(path, dir) == Ok("C:.Users.me.notes.final")
  {
    WindowsExamplePath();
    WindowsExampleId();
    assert dir[3] == 'k';
    WindowsExampleParts(["C:", "Users", "me", "notes.final"]);
    WorkflowIdOfComponents(["C:", "Users", "me", "notes.final"], '\\', "yml", dir, 3);
  }

}
