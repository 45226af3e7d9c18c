/// The admin control panel: three panels (Actions, Agents, Flows) cycled
/// with Tab, a list of principal actions selected with the arrows, and an
/// action pane opened with Enter and closed with 'c'.
module ControlPanel {
  import opened Wrappers
  import opened TuiActions

  /// The panels, in focus order.
  datatype Panel = Actions | Agents | Flows
  const Panels: seq<Panel> := [Actions, Agents, Flows]

  /// The actions the list offers, in display order.
  datatype ActionKind = Ping | ListWorkflowStore | CreateTasks
  const ActionList: seq<ActionKind> := [Ping, ListWorkflowStore, CreateTasks]

  /// The panel's state: the selected action, the focused panel's index,
  /// whether the action pane is open, and the action the pane is for.
  datatype ControlState = ControlState(selected: Option<nat>, panelFocussed: nat, actionModalOpen: bool, handler: ActionKind)

  /// The Actions list has a selection exactly while it is focused, the
  /// selection is one of the actions, and the pane is open only over it.
  predicate Valid(s: ControlState) {
    && s.panelFocussed < |Panels|
    && (s.selected.Some? <==> Panels[s.panelFocussed] == Actions)
    && (s.selected.Some? ==> s.selected.value < |ActionList|)
    && (s.actionModalOpen ==> Panels[s.panelFocussed] == Actions)
  }

  /// `focus_panel`: focusing the Actions list selects its first entry.
  function Focused(s: ControlState): ControlState
    requires s.panelFocussed < |Panels|
  {
    if Panels[s.panelFocussed] == Actions then s.(selected := Some(0)) else s
  }

  /// `unfocus_panel`: leaving the Actions list drops the selection and
  /// closes the pane.
  function Unfocused(s: ControlState): ControlState
    requires s.panelFocussed < |Panels|
  {
    if Panels[s.panelFocussed] == Actions then s.(selected := None, actionModalOpen := false) else s
  }

  /// `change_panel`: the next panel, after the last the first.
  function ChangedPanel(s: ControlState): (r: ControlState)
    requires s.panelFocussed < |Panels|
    ensures r.panelFocussed == (s.panelFocussed + 1) % |Panels|
  {
    var u := Unfocused(s);
    Focused(u.(panelFocussed := if u.panelFocussed == |Panels| - 1 then 0 else u.panelFocussed + 1))
  }

  /// `new`: the Actions panel focused with its first entry selected, the
  /// pane closed, and the default (ping) action.
  const Initial: ControlState := Focused(ControlState(None, 0, false, Ping))

  /// `select_action`: only with the Actions panel focused, one step down
  /// or up, stopping at either end; the pane's action follows the
  /// selection.
  function SelectedAction(s: ControlState, next: bool): ControlState
    requires Valid(s)
  {
    if s.panelFocussed == 0 then
      var i := s.selected.value;
      var j := if next then (if i < |ActionList| - 1 then i + 1 else i)
               else (if i > 0 then i - 1 else i);
      s.(selected := Some(j), handler := ActionList[j])
    else s
  }

  /// `action_enter`: opens the pane over the Actions panel; Enter in an
  /// open pane is left to the pane.
  function Entered(s: ControlState): ControlState
    requires s.panelFocussed < |Panels|
  {
    if Panels[s.panelFocussed] == Actions && !s.actionModalOpen then s.(actionModalOpen := true) else s
  }

  /// `handle_key_event`: Up/Down select, Tab changes panel, Enter opens
  /// the pane, 'c' closes it. Sending ('s') and editing ('e') act on the
  /// pane's content only.
  function HandleKey(s: ControlState, code: KeyCode): ControlState
    requires Valid(s)
  {
    match code
    case Up => SelectedAction(s, false)
    case Down => SelectedAction(s, true)
    case Tab => ChangedPanel(s)
    case Enter => Entered(s)
    case Char(c) => if c == 'c' then s.(actionModalOpen := false) else s
    case _ => s
  }

  /// Every key keeps the panel's state consistent.
  lemma HandleKeyKeepsValid(s: ControlState, code: KeyCode)
    requires Valid(s)
    ensures Valid(HandleKey(s, code))
  {
  }

  /// Three Tabs return to the same panel, with the Actions list's selection
  /// back at its first entry and the pane closed.
  lemma ChangePanelCycles(s: ControlState)
    requires Valid(s)
    ensures ChangedPanel(s).panelFocussed == (s.panelFocussed + 1) % 3
    ensures ChangedPanel(ChangedPanel(ChangedPanel(s))).panelFocussed == s.panelFocussed
    ensures s.panelFocussed == 0 ==> ChangedPanel(ChangedPanel(ChangedPanel(s))) == s.(selected := Some(0), actionModalOpen := false)
  {
  }

  /// Selecting moves by one within the list and never wraps; away from the
  /// Actions panel it changes nothing.
  lemma SelectClamps(s: ControlState, next: bool)
    requires Valid(s)
    ensures s.panelFocussed != 0 ==> SelectedAction(s, next) == s
    ensures s.panelFocussed == 0 ==>
              var i := s.selected.value;
              var r := SelectedAction(s, next);
              && r.selected.value < |ActionList|
              && (next && i < |ActionList| - 1 ==> r.selected == Some(i + 1))
              && (next && i == |ActionList| - 1 ==> r.selected == Some(i))
              && (!next && i > 0 ==> r.selected == Some(i - 1))
              && (!next && i == 0 ==> r.selected == Some(0))
              && r.handler == ActionList[r.selected.value]
              && r.panelFocussed == s.panelFocussed && r.actionModalOpen == s.actionModalOpen
  {
  }

  /// Enter opens the pane only over the Actions panel, and a second Enter
  /// changes nothing; 'c' always closes it.
  lemma EnterOpensPane(s: ControlState)
    requires Valid(s)
    ensures HandleKey(s, Enter).actionModalOpen <==> s.actionModalOpen || s.panelFocussed == 0
    ensures HandleKey(HandleKey(s, Enter), Enter) == HandleKey(s, Enter)
    ensures !HandleKey(s, Char('c')).actionModalOpen
  {
  }

  /// From a fresh panel, Up, Down, Down, Up leaves the second action
  /// selected: Up at the top stays at the first entry, and the last Up
  /// moves back one.
  lemma UpDownDownUp()
    ensures Valid(Initial)
    ensures HandleKey(Initial, Up).selected == Some(0)
    ensures var s1 := HandleKey(Initial, Up);
            var s2 := HandleKey(s1, Down);
            var s3 := HandleKey(s2, Down);
            s3.selected == Some(2) && HandleKey(s3, Up).selected == Some(1)
  {
    var s1 := HandleKey(Initial, Up);
    assert s1.selected == Some(0);
    var s2 := HandleKey(s1, Down);
    assert s2.selected == Some(1);
    var s3 := HandleKey(s2, Down);
    assert s3.selected == Some(2);
  }

  class ControlPanel {
    var actionState: Option<nat>
    var panelFocussed: nat
    var actionModalOpen: bool
    var actionHandler: ActionKind

    function State(): ControlState
      reads this
    {
      ControlState(actionState, panelFocussed, actionModalOpen, actionHandler)
    }

    /// `new`.
    constructor ()
      ensures State() == Initial && Valid(State())
    {
      actionState := None;
      panelFocussed := 0;
      actionModalOpen := false;
      actionHandler := Ping;
      new;
      FocusPanel();
    }

    /// `focus_panel`.
    method FocusPanel()
      requires panelFocussed < |Panels|
      modifies this
      ensures State() == Focused(old(State()))
    {
      if Panels[panelFocussed] == Actions {
        actionState := Some(0);
      }
    }

    /// `unfocus_panel`.
    method UnfocusPanel()
      requires panelFocussed < |Panels|
      modifies this
      ensures State() == Unfocused(old(State()))
    {
      if Panels[panelFocussed] == Actions {
        actionState := None;
        actionModalOpen := false;
      }
    }

    /// `change_panel`.
    method ChangePanel()
      requires panelFocussed < |Panels|
      modifies this
      ensures State() == ChangedPanel(old(State()))
    {
      UnfocusPanel();
      if panelFocussed == |Panels| - 1 {
        panelFocussed := 0;
      } else {
        panelFocussed := panelFocussed + 1;
      }
      FocusPanel();
    }

    /// `select_action`.
    method SelectAction(next: bool)
      requires Valid(State())
      modifies this
      ensures State() == SelectedAction(old(State()), next)
    {
      if panelFocussed == 0 {
        var selected := actionState.value;
        if next {
          if selected < |ActionList| - 1 {
            actionState := Some(selected + 1);
          }
        } else {
          if selected > 0 {
            actionState := Some(selected - 1);
          }
        }
        actionHandler := ActionList[actionState.value];
      }
    }

    /// `action_enter`.
    method ActionEnter()
      requires panelFocussed < |Panels|
      modifies this
      ensures State() == Entered(old(State()))
    {
      if Panels[panelFocussed] == Actions {
        if !actionModalOpen {
          actionModalOpen := true;
        }
      }
    }

    /// `handle_key_event`.
    method HandleKeyEvent(code: KeyCode)
      requires Valid(State())
      modifies this
      ensures State() == HandleKey(old(State()), code)
      ensures Valid(State())
    {
      HandleKeyKeepsValid(State(), code);
      match code {
        case Up => SelectAction(false);
        case Down => SelectAction(true);
        case Tab => ChangePanel();
        case Enter => ActionEnter();
        case Char(c) =>
          if c == 'c' {
            actionModalOpen := false;
          }
        case _ =>
      }
    }
  }
}
