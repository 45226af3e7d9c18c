/// Key mapping: which key, in which state of the interface, becomes which
/// action, and which keys act on a store directly. An open log viewer takes
/// every key; otherwise the command keys and the global keys come first,
/// then the active tab's keys.
module Keyboard {
  import opened Wrappers
  import opened TuiActions
  import RustInts
  import UiStore
  import WS = WorkflowsStore
  import AppLogsStore
  import LV = LogViewerStore

  // ---------------------------------------------------------------------
  // Workflows tab

  /// `next_panel`: Sidebar, then the main panel, then the run-info panel.
  function NextPanel(p: PanelId): PanelId {
    match p
    case Sidebar => MainPanel
    case MainPanel => RunInfoPanel
    case RunInfoPanel => Sidebar
  }

  /// Tab visits every panel and comes back after three presses.
  lemma NextPanelCycles(p: PanelId)
    ensures NextPanel(p) != p && NextPanel(NextPanel(p)) != p
    ensures NextPanel(NextPanel(NextPanel(p))) == p
  {
  }

  /// The selected workflow's position, with no selection, or a selected id
  /// not in the list, counting as the first.
  function SelectedIndexOrFirst(s: WS.WorkflowsState): (r: nat)
    ensures |s.workflows| > 0 ==> r < |s.workflows|
    ensures r > 0 ==> r < |s.workflows| && s.selectedWorkflowId.Some? && s.workflows[r].id == s.selectedWorkflowId.value
  {
    match s.selectedWorkflowId
    case None => 0
    case Some(id) => match WS.IndexOf(s.workflows, id) case Some(k) => k case None => 0
  }

  /// Reducing `a` modulo `n` when it is less than `2 * n`.
  lemma ModOnce(a: nat, n: nat)
    requires 0 < n && a < 2 * n
    ensures a % n == if a < n then a else a - n
  {
    if a < n {
      assert a == 0 * n + a;
    } else {
      assert a == 1 * n + (a - n);
    }
  }

  /// `next_workflow`: select the workflow after the current one, after the
  /// last the first; nothing for an empty list.
  function NextWorkflow(s: WS.WorkflowsState): (r: Option<Action>)
    ensures r.None? <==> |s.workflows| == 0
    ensures r.Some? ==> r.value == SelectWorkflow(s.workflows[(SelectedIndexOrFirst(s) + 1) % |s.workflows|].id)
  {
    if |s.workflows| == 0 then None
    else
      var current := SelectedIndexOrFirst(s);
      var next := if current >= |s.workflows| - 1 then 0 else current + 1;
      ModOnce(current + 1, |s.workflows|);
      Some(SelectWorkflow(s.workflows[next].id))
  }

  /// `previous_workflow`: select the workflow before the current one,
  /// before the first the last; nothing for an empty list.
  function PreviousWorkflow(s: WS.WorkflowsState): (r: Option<Action>)
    ensures r.None? <==> |s.workflows| == 0
    ensures r.Some? ==> r.value == SelectWorkflow(s.workflows[(SelectedIndexOrFirst(s) + |s.workflows| - 1) % |s.workflows|].id)
  {
    if |s.workflows| == 0 then None
    else
      var current := SelectedIndexOrFirst(s);
      var previous := if current == 0 then |s.workflows| - 1 else current - 1;
      ModOnce(current + |s.workflows| - 1, |s.workflows|);
      Some(SelectWorkflow(s.workflows[previous].id))
  }

  /// With no workflow selected, Down selects the second workflow (the first
  /// if there is only one) and Up the last.
  lemma NoSelectionCountsAsFirst(s: WS.WorkflowsState)
    requires s.selectedWorkflowId.None? && |s.workflows| > 0
    ensures NextWorkflow(s) == Some(SelectWorkflow(s.workflows[if |s.workflows| == 1 then 0 else 1].id))
    ensures PreviousWorkflow(s) == Some(SelectWorkflow(s.workflows[|s.workflows| - 1].id))
  {
  }

  /// Down from the last workflow selects the first, and Up from the first
  /// selects the last.
  lemma WorkflowMovesWrap(s: WS.WorkflowsState)
    requires |s.workflows| > 0 && s.selectedWorkflowId.Some?
    ensures WS.IndexOf(s.workflows, s.selectedWorkflowId.value) == Some(|s.workflows| - 1) ==>
              NextWorkflow(s) == Some(SelectWorkflow(s.workflows[0].id))
    ensures s.workflows[0].id == s.selectedWorkflowId.value ==>
              PreviousWorkflow(s) == Some(SelectWorkflow(s.workflows[|s.workflows| - 1].id))
  {
  }

  /// `char::is_control`: the C0 and C1 control characters and DEL.
  predicate IsControl(c: char) {
    c <= '\U{1F}' || ('\U{7F}' <= c && c <= '\U{9F}')
  }

  /// `String::pop`: the text without its last character.
  function Popped(s: string): (r: string)
    ensures s == [] ==> r == []
    ensures s != [] ==> r + [s[|s| - 1]] == s
  {
    if s == [] then s else s[..|s| - 1]
  }

  /// A filter after one key: Backspace drops the last character, a
  /// printable character is appended, Esc clears it; other keys do not
  /// edit the filter.
  function EditedFilter(filter: string, code: KeyCode): (r: Option<string>)
    ensures code == Backspace ==> r == Some(Popped(filter))
    ensures code.Char? && !IsControl(code.c) ==> r == Some(filter + [code.c])
    ensures code == Esc ==> r == Some([])
    ensures r.Some? ==> code == Backspace || code == Esc || (code.Char? && !IsControl(code.c))
  {
    match code
    case Backspace => Some(Popped(filter))
    case Char(c) => if IsControl(c) then None else Some(filter + [c])
    case Esc => Some([])
    case _ => None
  }

  /// Typing a character and then Backspace gives the filter back.
  lemma TypeThenBackspace(filter: string, c: char)
    requires !IsControl(c)
    ensures EditedFilter(EditedFilter(filter, Char(c)).value, Backspace) == Some(filter)
  {
    assert (filter + [c])[..|filter|] == filter;
  }

  /// `handle_workflows_tab_keys`: shift+r refreshes; Tab moves the focus;
  /// the focused panel decides what the other keys do. The sidebar and the
  /// run-info panel take typed characters into their filters before any
  /// navigation.
  function WorkflowsTabKey(ke: KeyEvent, panel: PanelId, s: WS.WorkflowsState): Option<Action> {
    var code := ke.code;
    if (code == Char('R') || code == Char('r')) && ke.shift then Some(RefreshWorkflows)
    else if code == Tab then Some(FocusPanel(NextPanel(panel)))
    else if panel == Sidebar then
      if EditedFilter(s.workflowsFilter, code).Some? then Some(UpdateWorkflowsFilter(EditedFilter(s.workflowsFilter, code).value))
      else if code == Down then NextWorkflow(s)
      else if code == Up then PreviousWorkflow(s)
      else if code == Enter then (if s.selectedWorkflowId.Some? then Some(OpenLogViewer(s.selectedWorkflowId.value)) else None)
      else None
    else if panel == MainPanel then
      if code == Down then Some(ScrollMainPanel(1))
      else if code == Up then Some(ScrollMainPanel(-1))
      else if code == PageDown then Some(ScrollMainPanel(5))
      else if code == PageUp then Some(ScrollMainPanel(-5))
      else None
    else
      if EditedFilter(s.runInfoFilter, code).Some? then Some(UpdateRunInfoFilter(EditedFilter(s.runInfoFilter, code).value))
      else if code == Down then Some(ScrollRunInfo(1))
      else if code == Up then Some(ScrollRunInfo(-1))
      else if code == PageDown then Some(ScrollRunInfo(5))
      else if code == PageUp then Some(ScrollRunInfo(-5))
      else None
  }

  /// Each panel's keys produce only that panel's actions: filter updates
  /// come from the panel whose filter it is, workflow selection only from
  /// the sidebar, scrolling only from the panel scrolled.
  lemma WorkflowsTabKeysStayInPanel(ke: KeyEvent, panel: PanelId, s: WS.WorkflowsState)
    ensures var r := WorkflowsTabKey(ke, panel, s);
            && (r.Some? && (r.value.UpdateWorkflowsFilter? || r.value.SelectWorkflow? || r.value.OpenLogViewer?) ==> panel == Sidebar)
            && (r.Some? && r.value.ScrollMainPanel? ==> panel == MainPanel)
            && (r.Some? && (r.value.UpdateRunInfoFilter? || r.value.ScrollRunInfo?) ==> panel == RunInfoPanel)
            && (r.Some? && r.value.FocusPanel? ==> r.value.panel == NextPanel(panel))
  {
  }

  /// In the sidebar a typed character goes into the filter, even one that
  /// is a navigation key elsewhere; Enter opens the viewer on the selected
  /// workflow.
  lemma SidebarTyping(ke: KeyEvent, s: WS.WorkflowsState)
    requires ke.code.Char? && !IsControl(ke.code.c)
    requires !((ke.code.c == 'R' || ke.code.c == 'r') && ke.shift)
    ensures WorkflowsTabKey(ke, Sidebar, s) == Some(UpdateWorkflowsFilter(s.workflowsFilter + [ke.code.c]))
    ensures WorkflowsTabKey(ke, RunInfoPanel, s) == Some(UpdateRunInfoFilter(s.runInfoFilter + [ke.code.c]))
    ensures WorkflowsTabKey(Pressed(Enter), Sidebar, s) ==
              if s.selectedWorkflowId.Some? then Some(OpenLogViewer(s.selectedWorkflowId.value)) else None
  {
  }

  // ---------------------------------------------------------------------
  // Top-level routing

  /// Where `handle_key_event` sends a key.
  datatype Route =
    | ToLogViewer          // the modal takes the key
    | StartCommand         // ':' starts a command
    | Emit(action: Action) // a global key's action
    | CancelCommand        // Esc abandons the command
    | ToWorkflowsTab
    | ToAdminTab

  /// The routing of `handle_key_event`, in its order of priority.
  function RouteKey(code: KeyCode, logViewerOpen: bool, commandInput: string, tab: TabId): (r: Route)
    ensures logViewerOpen <==> r == ToLogViewer
  {
    if logViewerOpen then ToLogViewer
    else if code == Char(':') then StartCommand
    else if code == Char('q') && commandInput == ":" then Emit(Quit)
    else if code == Esc && commandInput != [] then CancelCommand
    else if code == Char('?') then Emit(ToggleHelp)
    else if code == Char('1') then Emit(SwitchTab(WorkflowsTab))
    else if code == Char('2') then Emit(SwitchTab(AdminTab))
    else if tab == WorkflowsTab then ToWorkflowsTab
    else ToAdminTab
  }

  /// The global keys win over the tabs' keys, whatever panel has focus,
  /// while the log viewer is closed; 'q' quits only after ':'.
  lemma GlobalKeysFirst(code: KeyCode, commandInput: string, tab: TabId)
    ensures code == Char('?') ==> RouteKey(code, false, commandInput, tab) == Emit(ToggleHelp)
    ensures code == Char('1') ==> RouteKey(code, false, commandInput, tab) == Emit(SwitchTab(WorkflowsTab))
    ensures code == Char('2') ==> RouteKey(code, false, commandInput, tab) == Emit(SwitchTab(AdminTab))
    ensures code == Char('q') ==> (RouteKey(code, false, commandInput, tab) == Emit(Quit) <==> commandInput == ":")
    ensures (RouteKey(code, false, commandInput, tab).Emit? && RouteKey(code, false, commandInput, tab).action == Quit) ==>
              code == Char('q') && commandInput == ":"
  {
  }

  // ---------------------------------------------------------------------
  // Log viewer keys

  /// The outcome of a key in the log viewer: the store's new state, the
  /// action to dispatch, and whether the store panicked.
  datatype KeyResult = KeyResult(state: LV.LogViewerState, action: Option<Action>, panicked: bool)

  /// The date-time parser and the texts of `parse_time_inputs`, and the
  /// date the calendar has selected (see `LogViewerStore.ParseTimeInputs`
  /// and `LogViewerStore.CalendarSelectDate`).
  datatype QueryEnv = QueryEnv(parse: string -> Result<int, string>, zone: string, startLabel: string,
                               endLabel: string, picked: int, format: int -> string)

  /// Enter with a query form: both times parsed, then the query run, or the
  /// parser's error reported; the range changes only when both parse.
  function QueryOnEnter(s: LV.LogViewerState, env: QueryEnv): (r: KeyResult)
    ensures !r.panicked && r.action.Some? && r.state.inputs == s.inputs
    ensures r.action == Some(ExecuteLogQuery) <==>
              env.parse(s.inputs.startTimeInput + env.zone).Ok? && env.parse(s.inputs.endTimeInput + env.zone).Ok?
    ensures r.action != Some(ExecuteLogQuery) ==> r.action.value.QueryLogsError? && r.state == s
  {
    var start := env.parse(s.inputs.startTimeInput + env.zone);
    var end := env.parse(s.inputs.endTimeInput + env.zone);
    if start.Err? then KeyResult(s, Some(QueryLogsError(env.startLabel + start.error)), false)
    else if end.Err? then KeyResult(s, Some(QueryLogsError(env.endLabel + end.error)), false)
    else KeyResult(s.(startTime := start.value, endTime := end.value), Some(ExecuteLogQuery), false)
  }

  /// Keys while a calendar is open: Esc closes it, Enter takes the picked
  /// date; the arrows and page keys move the calendar's own date only.
  function CalendarKey(s: LV.LogViewerState, code: KeyCode, env: QueryEnv): LV.LogViewerState {
    if code == Esc then s.(startCalendarOpen := false, endCalendarOpen := false)
    else if code == Enter then LV.CalendarSelected(s, env.picked, env.format)
    else s
  }

  /// The editing keys' effect on the text inputs: Esc drops the focus, Tab
  /// (shift+Tab) moves it, Backspace deletes, the arrows move the cursor, a
  /// character is typed in. `None` is the panic of Backspace.
  function EditedInputs(x: LV.TextInputs, ke: KeyEvent): Option<LV.TextInputs> {
    match ke.code
    case Esc => Some(x.(focusedField := None, cursorPosition := 0))
    case Tab => Some(LV.Focused(x, if ke.shift then LV.PrevField(x.focusedField) else LV.NextField(x.focusedField)))
    case Backspace => LV.DeletedInput(x)
    case Left => Some(LV.MovedLeft(x))
    case Right => Some(LV.MovedRight(x))
    case Char(c) => Some(LV.UpdatedInput(x, c))
    case _ => Some(x)
  }

  /// With the cursor inside the focused field's text, editing never panics
  /// and keeps the cursor inside the text.
  lemma EditedInputsKeepCursorInField(x: LV.TextInputs, ke: KeyEvent)
    requires LV.CursorInField(x)
    ensures EditedInputs(x, ke).Some? && LV.CursorInField(EditedInputs(x, ke).value)
  {
    LV.EditingKeepsCursorInField(x, if ke.code.Char? then ke.code.c else ' ');
  }

  /// Keys while a field has the focus: space in a date field opens its
  /// calendar, Enter runs the query, the other keys edit.
  function FieldKey(s: LV.LogViewerState, ke: KeyEvent, env: QueryEnv): KeyResult
    requires s.inputs.focusedField.Some?
  {
    var x := s.inputs;
    if ke.code == Char(' ') && x.focusedField == Some(LV.StartTime) then
      KeyResult(s.(startCalendarOpen := true, endCalendarOpen := false), None, false)
    else if ke.code == Char(' ') && x.focusedField == Some(LV.EndTime) then
      KeyResult(s.(startCalendarOpen := false, endCalendarOpen := true), None, false)
    else if ke.code == Enter then QueryOnEnter(s, env)
    else match EditedInputs(x, ke)
      case None => KeyResult(s, None, true)
      case Some(y) => KeyResult(s.(inputs := y), None, false)
  }

  /// The letter commands: mode and verbosity toggles, auto-scroll, and
  /// vi-style scrolling. None of them touches the inputs.
  function LetterCommand(s: LV.LogViewerState, c: char): (r: KeyResult)
    ensures !r.panicked && r.state.inputs == s.inputs
    ensures r.action.Some? <==> c in "tTvV"
  {
    if c == 't' || c == 'T' then KeyResult(s, Some(ToggleLogMode), false)
    else if c == 'v' || c == 'V' then KeyResult(s, Some(ToggleVerboseLogging), false)
    else if c == 's' || c == 'S' then KeyResult(s.(autoScroll := !s.autoScroll), None, false)
    else if c == 'j' then KeyResult(LV.ScrolledUp(s, 1), None, false)
    else if c == 'k' then KeyResult(LV.ScrolledDown(s, 1), None, false)
    else KeyResult(s, None, false)
  }

  /// Keys with no field focused: Esc closes the viewer, t switches live and
  /// query mode, Tab and Enter reach the query form in query mode, s
  /// toggles following new lines, and j/k/the page keys scroll (j and Down
  /// towards the newest line).
  function NavigationKey(s: LV.LogViewerState, code: KeyCode, env: QueryEnv): KeyResult {
    match code
    case Esc => KeyResult(s, Some(CloseLogViewer), false)
    case Char(c) => LetterCommand(s, c)
    case Tab =>
      KeyResult(if s.isLiveMode then s else s.(inputs := LV.Focused(s.inputs, LV.NextField(s.inputs.focusedField))), None, false)
    case Enter => if s.isLiveMode then KeyResult(s, None, false) else QueryOnEnter(s, env)
    case Down => KeyResult(LV.ScrolledUp(s, 1), None, false)
    case Up => KeyResult(LV.ScrolledDown(s, 1), None, false)
    case PageDown => KeyResult(LV.ScrolledUp(s, 10), None, false)
    case PageUp => KeyResult(LV.ScrolledDown(s, 10), None, false)
    case _ => KeyResult(s, None, false)
  }

  /// `handle_log_viewer_keys`: an open calendar takes the keys first, then
  /// a focused field, then navigation.
  function LogViewerKey(s: LV.LogViewerState, ke: KeyEvent, env: QueryEnv): KeyResult {
    if s.startCalendarOpen || s.endCalendarOpen then KeyResult(CalendarKey(s, ke.code, env), None, false)
    else if s.inputs.focusedField.Some? then FieldKey(s, ke, env)
    else NavigationKey(s, ke.code, env)
  }

  /// An open calendar swallows every key: no action is produced, and only
  /// Esc and Enter change the store.
  lemma CalendarCapturesKeys(s: LV.LogViewerState, ke: KeyEvent, env: QueryEnv)
    requires s.startCalendarOpen || s.endCalendarOpen
    ensures LogViewerKey(s, ke, env).action.None? && !LogViewerKey(s, ke, env).panicked
    ensures ke.code != Esc && ke.code != Enter ==> LogViewerKey(s, ke, env).state == s
    ensures ke.code == Esc ==> !LogViewerKey(s, ke, env).state.startCalendarOpen && !LogViewerKey(s, ke, env).state.endCalendarOpen
  {
  }

  /// While a field has the focus, typed letters edit it rather than act as
  /// commands: 't' does not switch modes and Esc only drops the focus.
  lemma FocusedFieldTakesLetters(s: LV.LogViewerState, env: QueryEnv)
    requires !s.startCalendarOpen && !s.endCalendarOpen && s.inputs.focusedField.Some?
    ensures LogViewerKey(s, Pressed(Char('t')), env) == KeyResult(s.(inputs := LV.UpdatedInput(s.inputs, 't')), None, false)
    ensures LogViewerKey(s, Pressed(Esc), env).action.None?
    ensures LogViewerKey(s, Pressed(Esc), env).state.inputs.focusedField.None?
  {
  }

  /// A focused-field key keeps the cursor inside the text and never
  /// panics the store.
  lemma FieldKeyKeepsCursorInField(s: LV.LogViewerState, ke: KeyEvent, env: QueryEnv)
    requires s.inputs.focusedField.Some? && LV.CursorInField(s.inputs)
    ensures !FieldKey(s, ke, env).panicked
    ensures LV.CursorInField(FieldKey(s, ke, env).state.inputs)
  {
    EditedInputsKeepCursorInField(s.inputs, ke);
  }

  /// A navigation key keeps the cursor inside the text.
  lemma NavigationKeyKeepsCursorInField(s: LV.LogViewerState, code: KeyCode, env: QueryEnv)
    requires LV.CursorInField(s.inputs)
    ensures !NavigationKey(s, code, env).panicked
    ensures LV.CursorInField(NavigationKey(s, code, env).state.inputs)
  {
    match code {
      case Tab => LV.EditingKeepsCursorInField(s.inputs, ' ');
      case _ =>
    }
  }

  /// With the cursor inside the focused field's text, no key panics the
  /// store and the cursor stays inside the text.
  lemma LogViewerKeyKeepsCursorInField(s: LV.LogViewerState, ke: KeyEvent, env: QueryEnv)
    requires LV.CursorInField(s.inputs)
    ensures !LogViewerKey(s, ke, env).panicked
    ensures LV.CursorInField(LogViewerKey(s, ke, env).state.inputs)
  {
    if s.startCalendarOpen || s.endCalendarOpen {
      LV.CalendarSelectedKeepsCursorInField(s, env.picked, env.format);
    } else if s.inputs.focusedField.Some? {
      FieldKeyKeepsCursorInField(s, ke, env);
    } else {
      NavigationKeyKeepsCursorInField(s, ke.code, env);
    }
  }

  // ---------------------------------------------------------------------
  // The handlers over the stores

  /// `handle_log_viewer_keys`, acting on the store.
  method HandleLogViewerKeys(ke: KeyEvent, store: LV.LogViewerStore, env: QueryEnv)
    returns (r: Option<Action>, panicked: bool)
    modifies store
    ensures var k := LogViewerKey(old(store.state), ke, env);
            store.state == k.state && r == k.action && panicked == k.panicked
  {
    var state := store.GetState();
    panicked := false;
    r := None;
    if state.startCalendarOpen || state.endCalendarOpen {
      if ke.code == Esc {
        store.CloseCalendar();
      } else if ke.code == Enter {
        store.CalendarSelectDate(env.picked, env.format);
      }
    } else if state.inputs.focusedField.Some? {
      r, panicked := HandleFieldKeys(ke, store, env);
    } else {
      r := HandleNavigationKeys(ke.code, store, env);
    }
  }

  /// The focused-field arm of `handle_log_viewer_keys`.
  method HandleFieldKeys(ke: KeyEvent, store: LV.LogViewerStore, env: QueryEnv)
    returns (r: Option<Action>, panicked: bool)
    requires store.state.inputs.focusedField.Some?
    modifies store
    ensures var k := FieldKey(old(store.state), ke, env);
            store.state == k.state && r == k.action && panicked == k.panicked
  {
    var code := ke.code;
    var focused := store.state.inputs.focusedField;
    r := None;
    panicked := false;
    if code == Esc {
      store.ClearFocus();
    } else if code == Tab {
      if ke.shift {
        store.FocusPrevField();
      } else {
        store.FocusNextField();
      }
    } else if code == Backspace {
      panicked := store.DeleteInput();
    } else if code == Left {
      store.CursorLeft();
    } else if code == Right {
      store.CursorRight();
    } else if code == Char(' ') && focused == Some(LV.StartTime) {
      store.OpenStartCalendar();
    } else if code == Char(' ') && focused == Some(LV.EndTime) {
      store.OpenEndCalendar();
    } else if code.Char? {
      store.UpdateInput(code.c);
    } else if code == Enter {
      r := RunQuery(store, env);
    }
  }

  /// The navigation arm of `handle_log_viewer_keys`.
  method HandleNavigationKeys(code: KeyCode, store: LV.LogViewerStore, env: QueryEnv) returns (r: Option<Action>)
    modifies store
    ensures var k := NavigationKey(old(store.state), code, env);
            store.state == k.state && r == k.action && !k.panicked
  {
    r := None;
    match code {
      case Esc => r := Some(CloseLogViewer);
      case Char(c) => r := HandleNavigationChar(c, store);
      case Tab =>
        if !store.state.isLiveMode {
          store.FocusNextField();
        }
      case Enter =>
        if !store.state.isLiveMode {
          r := RunQuery(store, env);
        }
      case Down => store.ScrollUp(1);
      case Up => store.ScrollDown(1);
      case PageDown => store.ScrollUp(10);
      case PageUp => store.ScrollDown(10);
      case _ =>
    }
  }

  /// The letter commands of the log viewer.
  method HandleNavigationChar(c: char, store: LV.LogViewerStore) returns (r: Option<Action>)
    modifies store
    ensures var k := LetterCommand(old(store.state), c);
            store.state == k.state && r == k.action
  {
    r := None;
    if c == 't' || c == 'T' {
      r := Some(ToggleLogMode);
    } else if c == 'v' || c == 'V' {
      r := Some(ToggleVerboseLogging);
    } else if c == 's' || c == 'S' {
      store.ToggleAutoScroll();
    } else if c == 'j' {
      store.ScrollUp(1);
    } else if c == 'k' {
      store.ScrollDown(1);
    }
  }

  /// Enter's query: `parse_time_inputs`, then the action its outcome calls
  /// for.
  method RunQuery(store: LV.LogViewerStore, env: QueryEnv) returns (r: Option<Action>)
    modifies store
    ensures var k := QueryOnEnter(old(store.state), env);
            store.state == k.state && r == k.action
  {
    var parsed := store.ParseTimeInputs(env.parse, env.zone, env.startLabel, env.endLabel);
    match parsed {
      case Ok(_) => r := Some(ExecuteLogQuery);
      case Err(e) => r := Some(QueryLogsError(e));
    }
  }

  /// `handle_admin_tab_keys`: scrolling acts on the application-log store
  /// directly and produces no action.
  method HandleAdminTabKeys(code: KeyCode, store: AppLogsStore.AppLogsStore) returns (r: Option<Action>)
    modifies store
    ensures r.None? && store.logs == old(store.logs)
    ensures code == Char('j') || code == Down ==> store.scrollOffset == AppLogsStore.SaturatingSub(old(store.scrollOffset), 1)
    ensures code == Char('k') || code == Up ==> store.scrollOffset == AppLogsStore.ScrolledUp(old(store.scrollOffset), |old(store.logs)|, 1)
    ensures code == PageDown ==> store.scrollOffset == AppLogsStore.SaturatingSub(old(store.scrollOffset), 10)
    ensures code == PageUp ==> store.scrollOffset == AppLogsStore.ScrolledUp(old(store.scrollOffset), |old(store.logs)|, 10)
    ensures code == Char('g') ==> store.scrollOffset == 0
    ensures !(code in {Char('j'), Down, Char('k'), Up, PageDown, PageUp, Char('g')}) ==> store.scrollOffset == old(store.scrollOffset)
  {
    r := None;
    if code == Char('j') || code == Down {
      store.ScrollDown(1);
    } else if code == Char('k') || code == Up {
      store.ScrollUp(1);
    } else if code == PageDown {
      store.ScrollDown(10);
    } else if code == PageUp {
      store.ScrollUp(10);
    } else if code == Char('g') {
      store.ScrollToBottom();
    }
  }

  /// `handle_key_event`. The command line's text is passed in and its new
  /// value returned.
  method HandleKeyEvent(ke: KeyEvent, commandInput: string, ui: UiStore.UIStore, workflows: WS.WorkflowsStore,
                        appLogs: AppLogsStore.AppLogsStore, logViewer: LV.LogViewerStore, env: QueryEnv)
    returns (r: Option<Action>, newCommandInput: string, panicked: bool)
    modifies appLogs, logViewer
    ensures var route := RouteKey(ke.code, old(logViewer.state.isOpen), commandInput, ui.State().activeTab);
            && (route == ToLogViewer ==>
                  var k := LogViewerKey(old(logViewer.state), ke, env);
                  logViewer.state == k.state && r == k.action && panicked == k.panicked)
            && (route != ToLogViewer ==> logViewer.state == old(logViewer.state) && !panicked)
            && (route != ToAdminTab ==> appLogs.scrollOffset == old(appLogs.scrollOffset))
            && appLogs.logs == old(appLogs.logs)
            && (route == StartCommand ==> r.None? && newCommandInput == ":")
            && (route == CancelCommand ==> r.None? && newCommandInput == [])
            && (route != StartCommand && route != CancelCommand ==> newCommandInput == commandInput)
            && (route.Emit? ==> r == Some(route.action))
            && (route == ToWorkflowsTab ==> r == WorkflowsTabKey(ke, ui.State().focusedPanel, workflows.state))
            && (route == ToAdminTab ==> r.None?)
  {
    var uiState := ui.State();
    var viewer := logViewer.GetState();
    newCommandInput := commandInput;
    panicked := false;
    if viewer.isOpen {
      r, panicked := HandleLogViewerKeys(ke, logViewer, env);
      return;
    }
    var code := ke.code;
    if code == Char(':') {
      newCommandInput := ":";
      r := None;
    } else if code == Char('q') && commandInput == ":" {
      r := Some(Quit);
    } else if code == Esc && commandInput != [] {
      newCommandInput := [];
      r := None;
    } else if code == Char('?') {
      r := Some(ToggleHelp);
    } else if code == Char('1') {
      r := Some(SwitchTab(WorkflowsTab));
    } else if code == Char('2') {
      r := Some(SwitchTab(AdminTab));
    } else if uiState.activeTab == WorkflowsTab {
      var state := workflows.GetState();
      r := WorkflowsTabKey(ke, uiState.focusedPanel, state);
    } else {
      r := HandleAdminTabKeys(code, appLogs);
    }
  }
}
