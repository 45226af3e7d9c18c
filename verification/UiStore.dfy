/// The UI store: the active tab, the focused panel, the help overlay, the
/// error banner and the exit flag, changed only by `reduce`.
module UiStore {
  import opened Wrappers
  import opened TuiActions

  datatype UIState = UIState(activeTab: TabId, focusedPanel: PanelId, showHelp: bool,
                             errorMessage: Option<string>, shouldExit: bool)

  /// The fields of the UI state, to say which of them an action may touch.
  datatype UIField = ActiveTabField | FocusedPanelField | ShowHelpField | ErrorMessageField | ShouldExitField

  /// `s` and `t` agree on every field outside `fs`.
  predicate AgreeOutside(s: UIState, t: UIState, fs: set<UIField>) {
    && (ActiveTabField !in fs ==> t.activeTab == s.activeTab)
    && (FocusedPanelField !in fs ==> t.focusedPanel == s.focusedPanel)
    && (ShowHelpField !in fs ==> t.showHelp == s.showHelp)
    && (ErrorMessageField !in fs ==> t.errorMessage == s.errorMessage)
    && (ShouldExitField !in fs ==> t.shouldExit == s.shouldExit)
  }

  /// The one field each action is about; actions for other stores touch none.
  function Touched(a: Action): set<UIField> {
    match a
    case SwitchTab(_) => {ActiveTabField}
    case FocusPanel(_) => {FocusedPanelField}
    case ToggleHelp => {ShowHelpField}
    case ShowError(_) => {ErrorMessageField}
    case ClearError => {ErrorMessageField}
    case Quit => {ShouldExitField}
    case _ => {}
  }

  /// The reducer's effect on a state snapshot.
  function Step(s: UIState, a: Action): UIState {
    match a
    case SwitchTab(tab) => s.(activeTab := tab)
    case FocusPanel(panel) => s.(focusedPanel := panel)
    case ToggleHelp => s.(showHelp := !s.showHelp)
    case ShowError(message) => s.(errorMessage := Some(message))
    case ClearError => s.(errorMessage := None)
    case Quit => s.(shouldExit := true)
    case _ => s
  }

  /// Each action changes at most its own field, and sets it as named.
  lemma StepEffect(s: UIState, a: Action)
    ensures AgreeOutside(s, Step(s, a), Touched(a))
    ensures a.SwitchTab? ==> Step(s, a).activeTab == a.tab
    ensures a.FocusPanel? ==> Step(s, a).focusedPanel == a.panel
    ensures a.ToggleHelp? ==> Step(s, a).showHelp != s.showHelp
    ensures a.ShowError? ==> Step(s, a).errorMessage == Some(a.message)
    ensures a.ClearError? ==> Step(s, a).errorMessage == None
    ensures a.Quit? ==> Step(s, a).shouldExit
    ensures Touched(a) == {} ==> Step(s, a) == s
  {
  }

  /// Toggling help twice restores it.
  lemma ToggleHelpTwice(s: UIState)
    ensures Step(Step(s, ToggleHelp), ToggleHelp) == s
  {
  }

  /// The state after a sequence of actions.
  function Run(s: UIState, actions: seq<Action>): UIState
    decreases |actions|
  {
    if actions == [] then s else Run(Step(s, actions[0]), actions[1..])
  }

  /// No action clears the exit flag: once `Quit` is seen the UI stays exiting.
  lemma {:induction false} ExitSticks(s: UIState, actions: seq<Action>)
    requires s.shouldExit
    ensures Run(s, actions).shouldExit
    decreases |actions|
  {
    if actions != [] {
      ExitSticks(Step(s, actions[0]), actions[1..]);
    }
  }

  /// A `Quit` anywhere in a sequence leaves the UI exiting.
  lemma {:induction false} QuitAnywhere(s: UIState, actions: seq<Action>, k: nat)
    requires k < |actions| && actions[k] == Quit
    ensures Run(s, actions).shouldExit
    decreases |actions|
  {
    if k == 0 {
      ExitSticks(Step(s, Quit), actions[1..]);
    } else {
      QuitAnywhere(Step(s, actions[0]), actions[1..], k - 1);
    }
  }

  class UIStore {
    var activeTab: TabId
    var focusedPanel: PanelId
    var showHelp: bool
    var errorMessage: Option<string>
    var shouldExitFlag: bool

    /// `get_state`: a snapshot of the fields.
    function State(): UIState
      reads this
    {
      UIState(activeTab, focusedPanel, showHelp, errorMessage, shouldExitFlag)
    }

    /// `new`, with `UIState::default`: the workflows tab, the sidebar
    /// focused, no help, no error, not exiting.
    constructor ()
      ensures State() == UIState(WorkflowsTab, Sidebar, false, None, false)
    {
      activeTab := WorkflowsTab;
      focusedPanel := Sidebar;
      showHelp := false;
      errorMessage := None;
      shouldExitFlag := false;
    }

    /// `reduce`: assign the field the action is about.
    method Reduce(a: Action)
      modifies this
      ensures State() == Step(old(State()), a)
    {
      match a {
        case SwitchTab(tab) => activeTab := tab;
        case FocusPanel(panel) => focusedPanel := panel;
        case ToggleHelp => showHelp := !showHelp;
        case ShowError(message) => errorMessage := Some(message);
        case ClearError => errorMessage := None;
        case Quit => shouldExitFlag := true;
        case _ =>
      }
    }

    /// `should_exit`.
    method ShouldExit() returns (r: bool)
      ensures r == State().shouldExit
    {
      r := shouldExitFlag;
    }
  }
}
