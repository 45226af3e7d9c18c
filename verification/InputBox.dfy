/// A single-line text input: the text, a cursor counted in characters, and
/// a Normal/Editing mode; keys edit the text only while editing.
module InputBox {
  import opened Wrappers
  import opened TuiActions
  import RustInts

  datatype InputMode = Normal | Editing

  /// A snapshot of an input box.
  datatype InputState = InputState(input: string, characterIndex: nat, mode: InputMode)

  /// The cursor is at most one past the last character.
  predicate CursorInText(s: InputState) {
    s.characterIndex <= |s.input|
  }

  /// `clamp_cursor`: a position within the text.
  function Clamp(pos: nat, s: string): (r: nat)
    ensures r <= |s|
    ensures pos <= |s| ==> r == pos
    ensures pos > |s| ==> r == |s|
  {
    if pos <= |s| then pos else |s|
  }

  /// `c` inserted before the character at `i`, or appended when `i` is past
  /// the end (`byte_index` falls back to the text's length).
  function InsertAt(s: string, i: nat, c: char): (r: string)
    ensures |r| == |s| + 1
    ensures var k := if i <= |s| then i else |s|;
            r[k] == c && r[..k] == s[..k] && r[k + 1..] == s[k..]
  {
    var k := if i <= |s| then i else |s|;
    s[..k] + [c] + s[k..]
  }

  /// The characters before position `i - 1` followed by those from `i` on:
  /// the character before the cursor removed.
  function DeleteBefore(s: string, i: nat): (r: string)
    requires 0 < i <= |s|
    ensures |r| == |s| - 1
    ensures r[..i - 1] == s[..i - 1] && r[i - 1..] == s[i..]
  {
    s[..i - 1] + s[i..]
  }

  /// `move_cursor_left`.
  function MovedLeft(s: InputState): InputState {
    s.(characterIndex := Clamp(if s.characterIndex >= 1 then s.characterIndex - 1 else 0, s.input))
  }

  /// `move_cursor_right`.
  function MovedRight(s: InputState): InputState {
    s.(characterIndex := Clamp(if s.characterIndex + 1 <= RustInts.UsizeMax then s.characterIndex + 1 else RustInts.UsizeMax, s.input))
  }

  /// `enter_char`: insert at the cursor, then move right.
  function EnteredChar(s: InputState, c: char): InputState {
    MovedRight(s.(input := InsertAt(s.input, s.characterIndex, c)))
  }

  /// `delete_char`: at the leftmost position nothing changes.
  function DeletedChar(s: InputState): InputState {
    if s.characterIndex == 0 then s
    else
      var before := if s.characterIndex - 1 <= |s.input| then s.input[..s.characterIndex - 1] else s.input;
      var after := if s.characterIndex <= |s.input| then s.input[s.characterIndex..] else [];
      MovedLeft(s.(input := before + after))
  }

  /// `submit_message`: the text is cleared and the cursor reset.
  function Submitted(s: InputState): InputState {
    s.(input := [], characterIndex := 0)
  }

  /// `handle_key_event`: only key presses while editing do anything.
  function HandleKey(s: InputState, ke: KeyEvent): InputState {
    if s.mode == Normal || ke.kind != Press then s
    else match ke.code
      case Enter => Submitted(s)
      case Char(c) => EnteredChar(s, c)
      case Backspace => DeletedChar(s)
      case Left => MovedLeft(s)
      case Right => MovedRight(s)
      case Esc => s.(mode := Normal)
      case _ => s
  }

  /// `get_cursor_position`: one column right of the cursor on the first
  /// line inside the border, while editing. The `as u16` cast and the `+ 1`
  /// wrap in a release build.
  function CursorPosition(s: InputState): (r: Option<(nat, nat)>)
    ensures r.Some? <==> s.mode == Editing
    ensures r.Some? ==> r.value.1 == 1 && r.value.0 <= RustInts.U16Max
    ensures r.Some? && s.characterIndex < RustInts.U16Max ==> r.value.0 == s.characterIndex + 1
  {
    if s.mode == Editing then Some(((s.characterIndex % 0x1_0000 + 1) % 0x1_0000, 1)) else None
  }

  /// Entering a character inserts it at the cursor and moves past it.
  lemma EnteredCharEffect(s: InputState, c: char)
    requires CursorInText(s) && |s.input| < RustInts.UsizeMax
    ensures var r := EnteredChar(s, c);
            && r.input == s.input[..s.characterIndex] + [c] + s.input[s.characterIndex..]
            && r.characterIndex == s.characterIndex + 1
            && r.mode == s.mode
  {
  }

  /// Deleting removes exactly the character before the cursor and moves
  /// back over it; at the leftmost position nothing changes.
  lemma DeletedCharEffect(s: InputState)
    requires CursorInText(s)
    ensures s.characterIndex == 0 ==> DeletedChar(s) == s
    ensures s.characterIndex > 0 ==>
              && DeletedChar(s).input == DeleteBefore(s.input, s.characterIndex)
              && DeletedChar(s).characterIndex == s.characterIndex - 1
  {
  }

  /// Entering a character and deleting it restores the text and the cursor.
  lemma EnterThenDelete(s: InputState, c: char)
    requires CursorInText(s) && |s.input| < RustInts.UsizeMax
    ensures DeletedChar(EnteredChar(s, c)) == s
  {
    var k := s.characterIndex;
    var u := s.input[..k] + [c] + s.input[k..];
    assert u[..k] + u[k + 1..] == s.input;
  }

  /// Every key keeps the cursor inside the text.
  lemma HandleKeyKeepsCursorInText(s: InputState, ke: KeyEvent)
    requires CursorInText(s)
    ensures CursorInText(HandleKey(s, ke))
  {
    if s.mode == Editing && ke.kind == Press && ke.code.Backspace? && s.characterIndex > 0 {
      DeletedCharEffect(s);
    }
  }

  /// In Normal mode, and for anything but a press, keys change nothing;
  /// Esc while editing returns to Normal with the text kept.
  lemma ModeGuards(s: InputState, ke: KeyEvent)
    ensures s.mode == Normal || ke.kind != Press ==> HandleKey(s, ke) == s
    ensures s.mode == Editing && ke.kind == Press && ke.code == Esc ==> HandleKey(s, ke) == s.(mode := Normal)
    ensures s.mode == Editing && ke.kind == Press && ke.code == Enter ==>
              HandleKey(s, ke).input == [] && HandleKey(s, ke).characterIndex == 0
  {
  }

  class InputBox {
    var input: string
    var characterIndex: nat
    var inputMode: InputMode
    const title: string

    function State(): InputState
      reads this
    {
      InputState(input, characterIndex, inputMode)
    }

    /// `new`: empty, cursor at 0, in Normal mode.
    constructor (title: string)
      ensures State() == InputState([], 0, Normal) && this.title == title
    {
      this.title := title;
      input := [];
      characterIndex := 0;
      inputMode := Normal;
    }

    /// `is_editing`.
    method IsEditing() returns (r: bool)
      ensures r <==> inputMode == Editing
    {
      r := inputMode == Editing;
    }

    /// `enter_edit_mode`.
    method EnterEditMode()
      modifies this
      ensures State() == old(State()).(mode := Editing)
    {
      inputMode := Editing;
    }

    /// `handle_key_event`.
    method HandleKeyEvent(ke: KeyEvent)
      modifies this
      ensures State() == HandleKey(old(State()), ke)
    {
      if inputMode == Editing && ke.kind == Press {
        match ke.code {
          case Enter =>
            input := [];
            characterIndex := 0;
          case Char(c) =>
            input := InsertAt(input, characterIndex, c);
            MoveCursorRight();
          case Backspace =>
            if characterIndex != 0 {
              var before := if characterIndex - 1 <= |input| then input[..characterIndex - 1] else input;
              var after := if characterIndex <= |input| then input[characterIndex..] else [];
              input := before + after;
              MoveCursorLeft();
            }
          case Left => MoveCursorLeft();
          case Right => MoveCursorRight();
          case Esc => inputMode := Normal;
          case _ =>
        }
      }
    }

    /// `move_cursor_left`.
    method MoveCursorLeft()
      modifies this
      ensures State() == MovedLeft(old(State()))
    {
      var moved := if characterIndex >= 1 then characterIndex - 1 else 0;
      characterIndex := Clamp(moved, input);
    }

    /// `move_cursor_right`.
    method MoveCursorRight()
      modifies this
      ensures State() == MovedRight(old(State()))
    {
      var moved := if characterIndex + 1 <= RustInts.UsizeMax then characterIndex + 1 else RustInts.UsizeMax;
      characterIndex := Clamp(moved, input);
    }

    /// `get_cursor_position`.
    method GetCursorPosition() returns (r: Option<(nat, nat)>)
      ensures r == CursorPosition(State())
    {
      if inputMode == Editing {
        r := Some(((characterIndex % 0x1_0000 + 1) % 0x1_0000, 1));
      } else {
        r := None;
      }
    }
  }
}
