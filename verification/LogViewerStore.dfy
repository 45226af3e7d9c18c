/// The log viewer's store: whether the modal is open and for which workflow,
/// live or query mode, the log lines shown and the scroll offset, the query's
/// time range and its three text inputs with a cursor, the error banner, and
/// the calendar popups' flags.
module LogViewerStore {
  import opened Wrappers
  import opened TuiActions
  import RustInts

  datatype InputField = StartTime | EndTime | Grep

  /// The three text inputs of the query form, the focused one and the
  /// cursor in it (fields of the source's state record, grouped here).
  datatype TextInputs = TextInputs(
    startTimeInput: string,
    endTimeInput: string,
    grepFilter: string,
    focusedField: Option<InputField>,
    cursorPosition: nat)

  datatype LogViewerState = LogViewerState(
    isOpen: bool,
    workflowId: Option<string>,
    isLiveMode: bool,
    logs: seq<string>,
    scrollOffset: nat,
    startTime: int,
    endTime: int,
    isLoading: bool,
    inputs: TextInputs,
    errorMessage: Option<string>,
    isEditing: bool,
    autoScroll: bool,
    startCalendarOpen: bool,
    endCalendarOpen: bool)

  /// Two days in milliseconds, the default width of the query range.
  const TwoDaysMs: int := 2 * 24 * 60 * 60 * 1000

  /// `LogViewerState::default` at the instant `now` (milliseconds of UTC),
  /// with `format` standing for the "%Y-%m-%d %H:%M:%S%.3f" formatter.
  function Default(now: int, format: int -> string): (s: LogViewerState)
    ensures s.endTime == now && s.startTime == now - TwoDaysMs
    ensures s.inputs == TextInputs(format(now - TwoDaysMs), format(now), "", None, 0)
    ensures !s.isOpen && !s.isLiveMode && s.logs == [] && s.autoScroll
  {
    LogViewerState(false, None, false, [], 0, now - TwoDaysMs, now, false,
                   TextInputs(format(now - TwoDaysMs), format(now), "", None, 0), None, false, true, false, false)
  }

  // ---------------------------------------------------------------------
  // The text inputs and their cursor

  /// The text of one input field.
  function FieldText(x: TextInputs, f: InputField): string {
    match f
    case StartTime => x.startTimeInput
    case EndTime => x.endTimeInput
    case Grep => x.grepFilter
  }

  /// `x` with the text of field `f` replaced.
  function WithFieldText(x: TextInputs, f: InputField, t: string): (r: TextInputs)
    ensures FieldText(r, f) == t
    ensures r.focusedField == x.focusedField && r.cursorPosition == x.cursorPosition
  {
    match f
    case StartTime => x.(startTimeInput := t)
    case EndTime => x.(endTimeInput := t)
    case Grep => x.(grepFilter := t)
  }

  /// Writing one field leaves the other two as they were.
  lemma WithFieldTextOthers(x: TextInputs, f: InputField, t: string, g: InputField)
    requires g != f
    ensures FieldText(WithFieldText(x, f, t), g) == FieldText(x, g)
  {
  }

  /// The cursor lies within the focused field's text (at most at its end).
  predicate CursorInField(x: TextInputs) {
    x.focusedField.Some? ==> x.cursorPosition <= |FieldText(x, x.focusedField.value)|
  }

  /// `update_input(c)`: insert `c` at the cursor of the focused field and
  /// advance the cursor; a cursor past the end, or no focus, changes nothing.
  function UpdatedInput(x: TextInputs, c: char): TextInputs {
    match x.focusedField
    case None => x
    case Some(f) =>
      var t := FieldText(x, f);
      if x.cursorPosition <= |t| then
        WithFieldText(x, f, t[..x.cursorPosition] + [c] + t[x.cursorPosition..]).(cursorPosition := x.cursorPosition + 1)
      else x
  }

  /// `delete_input`: remove the character before the cursor and step back.
  /// `String::remove` panics when that position is not inside the text;
  /// the panic is the `None` outcome.
  function DeletedInput(x: TextInputs): Option<TextInputs> {
    match x.focusedField
    case None => Some(x)
    case Some(f) =>
      var t := FieldText(x, f);
      if x.cursorPosition == 0 then Some(x)
      else if x.cursorPosition - 1 >= |t| then None
      else Some(WithFieldText(x, f, t[..x.cursorPosition - 1] + t[x.cursorPosition..]).(cursorPosition := x.cursorPosition - 1))
  }

  /// The field after `f` in the Tab order.
  function NextField(f: Option<InputField>): InputField {
    match f
    case None => StartTime
    case Some(StartTime) => EndTime
    case Some(EndTime) => Grep
    case Some(Grep) => StartTime
  }

  /// The field before `f` in the Tab order.
  function PrevField(f: Option<InputField>): InputField {
    match f
    case None => Grep
    case Some(StartTime) => Grep
    case Some(EndTime) => StartTime
    case Some(Grep) => EndTime
  }

  /// Focus `f` with the cursor at the end of its text.
  function Focused(x: TextInputs, f: InputField): TextInputs {
    x.(focusedField := Some(f), cursorPosition := |FieldText(x, f)|)
  }

  /// `cursor_left`: one step back, stopping at 0; it does not look at the focus.
  function MovedLeft(x: TextInputs): TextInputs {
    if x.cursorPosition > 0 then x.(cursorPosition := x.cursorPosition - 1) else x
  }

  /// `cursor_right`: one step forward inside the focused field's text.
  function MovedRight(x: TextInputs): TextInputs {
    match x.focusedField
    case None => x
    case Some(f) => if x.cursorPosition < |FieldText(x, f)| then x.(cursorPosition := x.cursorPosition + 1) else x
  }

  /// Inserting and then deleting at the cursor restores the inputs.
  lemma InsertThenDelete(x: TextInputs, c: char)
    requires x.focusedField.Some? && CursorInField(x)
    ensures DeletedInput(UpdatedInput(x, c)) == Some(x)
  {
    var t := FieldText(x, x.focusedField.value);
    var k := x.cursorPosition;
    assert (t[..k] + [c] + t[k..])[..k] + (t[..k] + [c] + t[k..])[k + 1..] == t;
  }

  /// What `update_input` does to the focused text and the cursor.
  lemma UpdatedInputEffect(x: TextInputs, c: char)
    requires x.focusedField.Some? && CursorInField(x)
    ensures var f := x.focusedField.value;
            var r := UpdatedInput(x, c);
            && |FieldText(r, f)| == |FieldText(x, f)| + 1
            && FieldText(r, f)[x.cursorPosition] == c
            && FieldText(r, f)[..x.cursorPosition] == FieldText(x, f)[..x.cursorPosition]
            && FieldText(r, f)[x.cursorPosition + 1..] == FieldText(x, f)[x.cursorPosition..]
            && r.cursorPosition == x.cursorPosition + 1
            && (forall g :: g != f ==> FieldText(r, g) == FieldText(x, g))
  {
  }

  /// With the cursor inside its field, `delete_input` never panics, and it
  /// removes exactly the character before the cursor.
  lemma DeletedInputEffect(x: TextInputs)
    requires CursorInField(x)
    ensures DeletedInput(x).Some?
    ensures x.focusedField.Some? && x.cursorPosition > 0 ==>
              var f := x.focusedField.value;
              var r := DeletedInput(x).value;
              && FieldText(r, f) == FieldText(x, f)[..x.cursorPosition - 1] + FieldText(x, f)[x.cursorPosition..]
              && r.cursorPosition == x.cursorPosition - 1
              && (forall g :: g != f ==> FieldText(r, g) == FieldText(x, g))
    ensures x.focusedField.None? || x.cursorPosition == 0 ==> DeletedInput(x) == Some(x)
  {
  }

  /// Every editing operation keeps the cursor inside the focused field.
  lemma EditingKeepsCursorInField(x: TextInputs, c: char)
    requires CursorInField(x)
    ensures CursorInField(UpdatedInput(x, c))
    ensures DeletedInput(x).Some? && CursorInField(DeletedInput(x).value)
    ensures CursorInField(MovedLeft(x)) && CursorInField(MovedRight(x))
    ensures CursorInField(Focused(x, NextField(x.focusedField)))
    ensures CursorInField(Focused(x, PrevField(x.focusedField)))
  {
  }

  /// Tab cycles through the three fields, and Shift+Tab undoes Tab.
  lemma FocusCycles(f: InputField)
    ensures NextField(Some(NextField(Some(NextField(Some(f)))))) == f
    ensures PrevField(Some(NextField(Some(f)))) == f
    ensures NextField(Some(PrevField(Some(f)))) == f
  {
  }

  // ---------------------------------------------------------------------
  // Scrolling

  /// `scroll_down`: the offset grows, saturating; a manual scroll in live
  /// mode stops auto-scrolling.
  function ScrolledDown(s: LogViewerState, amount: nat): (r: LogViewerState)
    ensures r.scrollOffset == if s.scrollOffset + amount <= RustInts.UsizeMax then s.scrollOffset + amount else RustInts.UsizeMax
    ensures r.autoScroll == (s.autoScroll && !s.isLiveMode)
    ensures r.inputs == s.inputs
    ensures r.(scrollOffset := s.scrollOffset, autoScroll := s.autoScroll) == s
  {
    var t := s.(scrollOffset := if s.scrollOffset + amount <= RustInts.UsizeMax then s.scrollOffset + amount else RustInts.UsizeMax);
    if s.isLiveMode then t.(autoScroll := false) else t
  }

  /// `scroll_up`: the offset shrinks, stopping at 0.
  function ScrolledUp(s: LogViewerState, amount: nat): (r: LogViewerState)
    ensures r.scrollOffset == if s.scrollOffset >= amount then s.scrollOffset - amount else 0
    ensures r.autoScroll == (s.autoScroll && !s.isLiveMode)
    ensures r.inputs == s.inputs
    ensures r.(scrollOffset := s.scrollOffset, autoScroll := s.autoScroll) == s
  {
    var t := s.(scrollOffset := if s.scrollOffset >= amount then s.scrollOffset - amount else 0);
    if s.isLiveMode then t.(autoScroll := false) else t
  }

  // ---------------------------------------------------------------------
  // The reducer

  /// `ToggleLogMode`: flip the mode and clear the view; entering query mode
  /// resets the range to the two days before `now` and clears the filter.
  function Toggled(s: LogViewerState, now: int, format: int -> string): LogViewerState {
    var t := s.(isLiveMode := !s.isLiveMode, logs := [], scrollOffset := 0, errorMessage := None,
                isEditing := false, inputs := s.inputs.(focusedField := None, cursorPosition := 0));
    if !t.isLiveMode then
      t.(endTime := now, startTime := now - TwoDaysMs,
         inputs := TextInputs(format(now - TwoDaysMs), format(now), "", None, |format(now - TwoDaysMs)|))
    else t
  }

  /// `LogReceived`: a line of the viewed workflow, in live mode with the
  /// viewer open, is appended; the view follows it or stays in place.
  function Received(s: LogViewerState, e: LogEvent): LogViewerState {
    if s.isOpen && s.isLiveMode && s.workflowId == Some(e.workflowId) then
      s.(logs := s.logs + [e.fullText],
         scrollOffset := if s.autoScroll then 0 else (s.scrollOffset + 1) % (RustInts.UsizeMax + 1))
    else s
  }

  /// The reducer's effect on a state snapshot; `now` and `format` stand for
  /// the clock and the time formatter.
  function Step(s: LogViewerState, a: Action, now: int, format: int -> string): LogViewerState {
    match a
    case OpenLogViewer(id) =>
      s.(isOpen := true, workflowId := Some(id), logs := [], scrollOffset := 0, isLiveMode := false,
         inputs := s.inputs.(cursorPosition := 0), errorMessage := None, isEditing := false)
    case CloseLogViewer => s.(isOpen := false, workflowId := None, logs := [], scrollOffset := 0)
    case ToggleLogMode => Toggled(s, now, format)
    case ExecuteLogQuery => s.(isLoading := true, logs := [], errorMessage := None)
    case QueryLogsResult(lines) => s.(isLoading := false, logs := lines, scrollOffset := 0, errorMessage := None)
    case QueryLogsError(e) => s.(isLoading := false, logs := [e], errorMessage := Some(QueryErrorText), scrollOffset := 0)
    case LogReceived(e) => Received(s, e)
    case _ => s
  }

  /// The banner of a failed query.
  const QueryErrorText := "Query Error"

  /// Opening, closing and switching mode all start from an empty view.
  lemma ViewResets(s: LogViewerState, id: string, now: int, format: int -> string)
    ensures var r := Step(s, OpenLogViewer(id), now, format);
            r.isOpen && r.workflowId == Some(id) && r.logs == [] && r.scrollOffset == 0 && !r.isLiveMode
    ensures var r := Step(s, CloseLogViewer, now, format);
            !r.isOpen && r.workflowId == None && r.logs == [] && r.scrollOffset == 0
    ensures var r := Step(s, ToggleLogMode, now, format);
            r.isLiveMode != s.isLiveMode && r.logs == [] && r.scrollOffset == 0 && r.inputs.focusedField == None
  {
  }

  /// A failed query shows exactly its error line; a result replaces the lines.
  lemma QueryOutcomes(s: LogViewerState, e: string, lines: seq<string>, now: int, format: int -> string)
    ensures var r := Step(s, QueryLogsError(e), now, format);
            r.logs == [e] && r.errorMessage == Some(QueryErrorText) && !r.isLoading
    ensures var r := Step(s, QueryLogsResult(lines), now, format);
            r.logs == lines && r.errorMessage == None && !r.isLoading && r.scrollOffset == 0
  {
  }

  /// A streamed line is kept exactly when the viewer is open on its
  /// workflow in live mode, and then it is the newest line.
  lemma ReceivedKeepsOnlyViewed(s: LogViewerState, e: LogEvent, now: int, format: int -> string)
    ensures var r := Step(s, LogReceived(e), now, format);
            && (r.logs == s.logs + [e.fullText] <==> s.isOpen && s.isLiveMode && s.workflowId == Some(e.workflowId))
            && (!(s.isOpen && s.isLiveMode && s.workflowId == Some(e.workflowId)) ==> r == s)
            && (r != s && s.autoScroll ==> r.scrollOffset == 0)
  {
    if !(s.isOpen && s.isLiveMode && s.workflowId == Some(e.workflowId)) {
      assert |s.logs + [e.fullText]| == |s.logs| + 1;
    }
  }

  /// No action of the reducer takes the cursor out of the focused field.
  lemma StepKeepsCursorInField(s: LogViewerState, a: Action, now: int, format: int -> string)
    requires CursorInField(s.inputs)
    ensures CursorInField(Step(s, a, now, format).inputs)
  {
    if !a.ToggleLogMode? && !a.OpenLogViewer? {
      assert Step(s, a, now, format).inputs == s.inputs;
    }
  }

  // ---------------------------------------------------------------------
  // Picking a date in the calendar

  /// `calendar_select_date` as written: the open calendar's field gets the
  /// text of the picked instant and the calendar closes; the cursor is left
  /// where it was. `picked` is the selected day at the field's old time of
  /// day, which the calendar's date arithmetic computes.
  function CalendarSelectedAsWritten(s: LogViewerState, picked: int, format: int -> string): LogViewerState {
    if s.startCalendarOpen then
      s.(startTime := picked, inputs := s.inputs.(startTimeInput := format(picked)), startCalendarOpen := false)
    else if s.endCalendarOpen then
      s.(endTime := picked, inputs := s.inputs.(endTimeInput := format(picked)), endCalendarOpen := false)
    else s
  }

  /// A date text shorter than what was typed leaves the cursor past the end
  /// of the focused field, and the next Backspace makes `String::remove`
  /// panic: focus the start time (cursor at its end, 23), type one
  /// character (24), open the calendar and pick a date (the text is 23
  /// characters again, the cursor still 24).
  lemma CalendarSelectStrandsCursor()
    ensures var format := (_: int) => "2025-01-01 12:00:00.000";
            var s := Default(0, format);
            var typed := s.(inputs := UpdatedInput(Focused(s.inputs, StartTime), '9'), startCalendarOpen := true);
            var picked := CalendarSelectedAsWritten(typed, 0, format);
            && CursorInField(typed.inputs)
            && !CursorInField(picked.inputs)
            && DeletedInput(picked.inputs) == None
  {
    var format := (_: int) => "2025-01-01 12:00:00.000";
    var s := Default(0, format);
    var typed := s.(inputs := UpdatedInput(Focused(s.inputs, StartTime), '9'), startCalendarOpen := true);
    assert |typed.inputs.startTimeInput| == 24 && typed.inputs.cursorPosition == 24;
    var picked := CalendarSelectedAsWritten(typed, 0, format);
    assert |picked.inputs.startTimeInput| == 23 && picked.inputs.cursorPosition == 24;
  }

  /// The cursor clamped to the end of the focused field.
  function ClampCursor(x: TextInputs): (r: TextInputs)
    ensures CursorInField(r)
    ensures r == x.(cursorPosition := r.cursorPosition) && r.cursorPosition <= x.cursorPosition
    ensures CursorInField(x) ==> r == x
  {
    match x.focusedField
    case None => x
    case Some(f) => if x.cursorPosition <= |FieldText(x, f)| then x else x.(cursorPosition := |FieldText(x, f)|)
  }

  /// `calendar_select_date` with the cursor clamped to the new text.
  function CalendarSelected(s: LogViewerState, picked: int, format: int -> string): LogViewerState {
    var t := CalendarSelectedAsWritten(s, picked, format);
    t.(inputs := ClampCursor(t.inputs))
  }

  /// The corrected selection keeps the cursor inside the focused field and
  /// differs from the source's only in the cursor, and only when the
  /// source's leaves it outside.
  lemma CalendarSelectedKeepsCursorInField(s: LogViewerState, picked: int, format: int -> string)
    ensures CursorInField(CalendarSelected(s, picked, format).inputs)
    ensures var w := CalendarSelectedAsWritten(s, picked, format);
            CalendarSelected(s, picked, format) == w.(inputs := w.inputs.(cursorPosition := CalendarSelected(s, picked, format).inputs.cursorPosition))
    ensures CursorInField(CalendarSelectedAsWritten(s, picked, format).inputs) ==>
              CalendarSelected(s, picked, format) == CalendarSelectedAsWritten(s, picked, format)
  {
  }

  // ---------------------------------------------------------------------
  // The store

  /// The store holds one state record behind a lock; the lock is not
  /// modelled.
  class LogViewerStore {
    var state: LogViewerState

    /// `new`: the default state at `now`.
    constructor (now: int, format: int -> string)
      ensures state == Default(now, format)
    {
      state := Default(now, format);
    }

    /// `get_state`: a copy of the state.
    method GetState() returns (r: LogViewerState)
      ensures r == state
    {
      r := state;
    }

    /// `reduce`.
    method Reduce(a: Action, now: int, format: int -> string)
      modifies this
      ensures state == Step(old(state), a, now, format)
    {
      if a.OpenLogViewer? {
        state := state.(isOpen := true, workflowId := Some(a.viewWorkflowId), logs := [], scrollOffset := 0,
                        isLiveMode := false, inputs := state.inputs.(cursorPosition := 0),
                        errorMessage := None, isEditing := false);
      } else if a.CloseLogViewer? {
        state := state.(isOpen := false, workflowId := None, logs := [], scrollOffset := 0);
      } else if a.ToggleLogMode? {
        ToggleLogMode(now, format);
      } else if a.ExecuteLogQuery? {
        state := state.(isLoading := true, logs := [], errorMessage := None);
      } else if a.QueryLogsResult? {
        state := state.(isLoading := false, logs := a.lines, scrollOffset := 0, errorMessage := None);
      } else if a.QueryLogsError? {
        state := state.(isLoading := false, logs := [a.queryError], errorMessage := Some(QueryErrorText), scrollOffset := 0);
      } else if a.LogReceived? {
        LogReceived(a.event);
      }
    }

    /// The `ToggleLogMode` arm of `reduce`.
    method ToggleLogMode(now: int, format: int -> string)
      modifies this
      ensures state == Toggled(old(state), now, format)
    {
      state := state.(isLiveMode := !state.isLiveMode, logs := [], scrollOffset := 0, errorMessage := None,
                      isEditing := false, inputs := state.inputs.(focusedField := None, cursorPosition := 0));
      if !state.isLiveMode {
        var startText := format(now - TwoDaysMs);
        state := state.(endTime := now, startTime := now - TwoDaysMs);
        state := state.(inputs := TextInputs(startText, format(now), "", None, |startText|));
      } else {
        state := state.(inputs := state.inputs.(focusedField := None, cursorPosition := 0));
      }
    }

    /// The `LogReceived` arm of `reduce`.
    method LogReceived(e: LogEvent)
      modifies this
      ensures state == Received(old(state), e)
    {
      if state.isOpen && state.isLiveMode && state.workflowId == Some(e.workflowId) {
        state := state.(logs := state.logs + [e.fullText]);
        if state.autoScroll {
          state := state.(scrollOffset := 0);
        } else {
          state := state.(scrollOffset := (state.scrollOffset + 1) % (RustInts.UsizeMax + 1));
        }
      }
    }

    /// `add_log`: append a line; in live mode with auto-scroll the view
    /// follows it.
    method AddLog(line: string)
      modifies this
      ensures state.logs == old(state.logs) + [line]
      ensures state.scrollOffset == if old(state.isLiveMode) && old(state.autoScroll) then 0 else old(state.scrollOffset)
      ensures state == old(state).(logs := state.logs, scrollOffset := state.scrollOffset)
    {
      state := state.(logs := state.logs + [line]);
      if state.isLiveMode && state.autoScroll && state.logs != [] {
        state := state.(scrollOffset := 0);
      }
    }

    /// `set_logs`: replace the lines and scroll to the start.
    method SetLogs(lines: seq<string>)
      modifies this
      ensures state == old(state).(logs := lines, scrollOffset := 0)
    {
      state := state.(logs := lines, scrollOffset := 0);
    }

    /// `scroll_down`.
    method ScrollDown(amount: nat)
      modifies this
      ensures state == ScrolledDown(old(state), amount)
    {
      state := state.(scrollOffset := if state.scrollOffset + amount <= RustInts.UsizeMax then state.scrollOffset + amount else RustInts.UsizeMax);
      if state.isLiveMode {
        state := state.(autoScroll := false);
      }
    }

    /// `scroll_up`.
    method ScrollUp(amount: nat)
      modifies this
      ensures state == ScrolledUp(old(state), amount)
    {
      state := state.(scrollOffset := if state.scrollOffset >= amount then state.scrollOffset - amount else 0);
      if state.isLiveMode {
        state := state.(autoScroll := false);
      }
    }

    /// `update_input`.
    method UpdateInput(c: char)
      modifies this
      ensures state == old(state).(inputs := UpdatedInput(old(state.inputs), c))
    {
      var x := state.inputs;
      if x.focusedField.Some? {
        var t := FieldText(x, x.focusedField.value);
        if x.cursorPosition <= |t| {
          x := WithFieldText(x, x.focusedField.value, t[..x.cursorPosition] + [c] + t[x.cursorPosition..]);
          x := x.(cursorPosition := x.cursorPosition + 1);
        }
      }
      state := state.(inputs := x);
    }

    /// `delete_input`; `panicked` reports the panic of `String::remove`,
    /// which leaves the state as it was.
    method DeleteInput() returns (panicked: bool)
      modifies this
      ensures panicked <==> DeletedInput(old(state.inputs)).None?
      ensures !panicked ==> state == old(state).(inputs := DeletedInput(old(state.inputs)).value)
      ensures panicked ==> state == old(state)
    {
      panicked := false;
      var x := state.inputs;
      if x.focusedField.Some? && x.cursorPosition > 0 {
        var t := FieldText(x, x.focusedField.value);
        var k := x.cursorPosition;
        if k - 1 >= |t| {
          panicked := true;
        } else {
          x := WithFieldText(x, x.focusedField.value, t[..k - 1] + t[k..]);
          x := x.(cursorPosition := k - 1);
          state := state.(inputs := x);
        }
      }
    }

    /// `focus_next_field`: the next field, with the cursor at its end.
    method FocusNextField()
      modifies this
      ensures state == old(state).(inputs := Focused(old(state.inputs), NextField(old(state.inputs.focusedField))))
    {
      var f := NextField(state.inputs.focusedField);
      state := state.(inputs := state.inputs.(focusedField := Some(f), cursorPosition := |FieldText(state.inputs, f)|));
    }

    /// `focus_prev_field`: the previous field, with the cursor at its end.
    method FocusPrevField()
      modifies this
      ensures state == old(state).(inputs := Focused(old(state.inputs), PrevField(old(state.inputs.focusedField))))
    {
      var f := PrevField(state.inputs.focusedField);
      state := state.(inputs := state.inputs.(focusedField := Some(f), cursorPosition := |FieldText(state.inputs, f)|));
    }

    /// `clear_focus`.
    method ClearFocus()
      modifies this
      ensures state == old(state).(inputs := old(state.inputs).(focusedField := None, cursorPosition := 0))
    {
      state := state.(inputs := state.inputs.(focusedField := None, cursorPosition := 0));
    }

    /// `enter_editing_mode`: editing, with the start time focused at its end.
    method EnterEditingMode()
      modifies this
      ensures state == old(state).(isEditing := true, inputs := Focused(old(state.inputs), StartTime))
    {
      state := state.(isEditing := true,
                      inputs := state.inputs.(focusedField := Some(StartTime), cursorPosition := |state.inputs.startTimeInput|));
    }

    /// `exit_editing_mode`.
    method ExitEditingMode()
      modifies this
      ensures state == old(state).(isEditing := false, inputs := old(state.inputs).(focusedField := None, cursorPosition := 0))
    {
      state := state.(isEditing := false, inputs := state.inputs.(focusedField := None, cursorPosition := 0));
    }

    /// `cursor_left`.
    method CursorLeft()
      modifies this
      ensures state == old(state).(inputs := MovedLeft(old(state.inputs)))
    {
      if state.inputs.cursorPosition > 0 {
        state := state.(inputs := state.inputs.(cursorPosition := state.inputs.cursorPosition - 1));
      }
    }

    /// `cursor_right`.
    method CursorRight()
      modifies this
      ensures state == old(state).(inputs := MovedRight(old(state.inputs)))
    {
      var x := state.inputs;
      if x.focusedField.Some? && x.cursorPosition < |FieldText(x, x.focusedField.value)| {
        state := state.(inputs := x.(cursorPosition := x.cursorPosition + 1));
      }
    }

    /// `set_error`: show the error and clear the lines.
    method SetError(e: string)
      modifies this
      ensures state == old(state).(errorMessage := Some(e), logs := [])
    {
      state := state.(errorMessage := Some(e), logs := []);
    }

    /// `clear_error`.
    method ClearError()
      modifies this
      ensures state == old(state).(errorMessage := None)
    {
      state := state.(errorMessage := None);
    }

    /// `parse_time_inputs`: both texts are read with " +00:00" appended; the
    /// range changes only when both parse. `parse` stands for the date-time
    /// parser, giving milliseconds of UTC or the parser's error text, and
    /// `startLabel`/`endLabel` for the "Invalid start time: " and
    /// "Invalid end time: " prefixes of the error.
    method ParseTimeInputs(parse: string -> Result<int, string>, zone: string, startLabel: string, endLabel: string)
      returns (r: Result<(), string>)
      modifies this
      ensures var start := parse(old(state.inputs.startTimeInput) + zone);
              var end := parse(old(state.inputs.endTimeInput) + zone);
              && (start.Err? ==> r == Err(startLabel + start.error) && state == old(state))
              && (start.Ok? && end.Err? ==> r == Err(endLabel + end.error) && state == old(state))
              && (start.Ok? && end.Ok? ==> r == Ok(()) && state == old(state).(startTime := start.value, endTime := end.value))
    {
      var start := parse(state.inputs.startTimeInput + zone);
      if start.Err? {
        return Err(startLabel + start.error);
      }
      var end := parse(state.inputs.endTimeInput + zone);
      if end.Err? {
        return Err(endLabel + end.error);
      }
      state := state.(startTime := start.value, endTime := end.value);
      r := Ok(());
    }

    /// `toggle_auto_scroll`.
    method ToggleAutoScroll()
      modifies this
      ensures state == old(state).(autoScroll := !old(state.autoScroll))
    {
      state := state.(autoScroll := !state.autoScroll);
    }

    /// `open_start_calendar`: only the start calendar is open.
    method OpenStartCalendar()
      modifies this
      ensures state == old(state).(startCalendarOpen := true, endCalendarOpen := false)
    {
      state := state.(startCalendarOpen := true, endCalendarOpen := false);
    }

    /// `open_end_calendar`: only the end calendar is open.
    method OpenEndCalendar()
      modifies this
      ensures state == old(state).(startCalendarOpen := false, endCalendarOpen := true)
    {
      state := state.(startCalendarOpen := false, endCalendarOpen := true);
    }

    /// `close_calendar`.
    method CloseCalendar()
      modifies this
      ensures state == old(state).(startCalendarOpen := false, endCalendarOpen := false)
    {
      state := state.(startCalendarOpen := false, endCalendarOpen := false);
    }

    /// `calendar_select_date`, with the cursor clamped to the new text.
    method CalendarSelectDate(picked: int, format: int -> string)
      modifies this
      ensures state == CalendarSelected(old(state), picked, format)
    {
      if state.startCalendarOpen {
        state := state.(startTime := picked, inputs := state.inputs.(startTimeInput := format(picked)), startCalendarOpen := false);
      } else if state.endCalendarOpen {
        state := state.(endTime := picked, inputs := state.inputs.(endTimeInput := format(picked)), endCalendarOpen := false);
      }
      var x := state.inputs;
      if x.focusedField.Some? && x.cursorPosition > |FieldText(x, x.focusedField.value)| {
        state := state.(inputs := x.(cursorPosition := |FieldText(x, x.focusedField.value)|));
      }
    }
  }
}
