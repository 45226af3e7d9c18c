/// The workflows store: the workflow list the principal reports, kept in
/// id order, the selected workflow, the loading and error flags, the recent
/// statuses and agents, and the scroll offsets and filters of the panels.
module WorkflowsStore {
  import opened Wrappers
  import opened TuiActions
  import RustInts
  import WorkflowModels

  type Workflow = WorkflowModels.Workflow

  // ---------------------------------------------------------------------
  // Ordering workflows by id

  /// The order of Rust's `String`: lexicographic by character, a proper
  /// prefix first.
  predicate LexLe(a: string, b: string)
    decreases |a|
  {
    if a == [] then true
    else if b == [] then false
    else if a[0] != b[0] then a[0] < b[0]
    else LexLe(a[1..], b[1..])
  }

  /// Any two strings are ordered one way or the other.
  lemma {:induction false} LexTotal(a: string, b: string)
    ensures LexLe(a, b) || LexLe(b, a)
    decreases |a|
  {
    if a != [] && b != [] && a[0] == b[0] {
      LexTotal(a[1..], b[1..]);
    }
  }

  /// Neighbours in `ws` are in id order.
  predicate SortedById(ws: seq<Workflow>) {
    forall i :: 0 <= i < |ws| - 1 ==> LexLe(ws[i].id, ws[i + 1].id)
  }

  /// `w` placed before the first workflow whose id is not smaller.
  function InsertById(w: Workflow, ws: seq<Workflow>): seq<Workflow> {
    if ws == [] || LexLe(w.id, ws[0].id) then [w] + ws
    else [ws[0]] + InsertById(w, ws[1..])
  }

  /// `sort_by_key(|w| w.id())`: the standard library's stable sort.
  function SortById(ws: seq<Workflow>): seq<Workflow> {
    if ws == [] then [] else InsertById(ws[0], SortById(ws[1..]))
  }

  lemma {:induction false} InsertSorted(w: Workflow, ws: seq<Workflow>)
    requires SortedById(ws)
    ensures SortedById(InsertById(w, ws))
    ensures multiset(InsertById(w, ws)) == multiset(ws) + multiset{w}
    ensures InsertById(w, ws)[0] == w || (ws != [] && InsertById(w, ws)[0] == ws[0])
  {
    if ws != [] && !LexLe(w.id, ws[0].id) {
      var rest := InsertById(w, ws[1..]);
      InsertSorted(w, ws[1..]);
      LexTotal(w.id, ws[0].id);
      assert InsertById(w, ws) == [ws[0]] + rest;
      assert ws == [ws[0]] + ws[1..];
      assert multiset(ws) == multiset{ws[0]} + multiset(ws[1..]);
    }
  }

  /// The sorted list holds the same workflows, in id order.
  lemma {:induction false} SortSorted(ws: seq<Workflow>)
    ensures SortedById(SortById(ws))
    ensures multiset(SortById(ws)) == multiset(ws)
  {
    if ws != [] {
      SortSorted(ws[1..]);
      InsertSorted(ws[0], SortById(ws[1..]));
      assert ws == [ws[0]] + ws[1..];
      assert multiset(ws) == multiset(ws[1..]) + multiset{ws[0]};
    }
  }

  /// `position(|w| w.id() == id)`: the first workflow with the id.
  function IndexOf(ws: seq<Workflow>, id: string): (r: Option<nat>)
    ensures r.Some? ==> r.value < |ws| && ws[r.value].id == id
    ensures r.Some? ==> forall j :: 0 <= j < r.value ==> ws[j].id != id
    ensures r.None? ==> forall j :: 0 <= j < |ws| ==> ws[j].id != id
  {
    if ws == [] then None
    else if ws[0].id == id then Some(0)
    else match IndexOf(ws[1..], id)
      case None => None
      case Some(k) => Some(k + 1)
  }

  // ---------------------------------------------------------------------
  // Scrolling

  /// `ScrollRunInfo`: `offset as i32 + delta`, at least zero. A release
  /// build wraps both the cast and the sum.
  function ScrolledRunInfo(offset: nat, delta: RustInts.I32): nat {
    var n := RustInts.AsI32(RustInts.AsI32(offset) + delta);
    if n < 0 then 0 else n
  }

  /// `ScrollMainPanel`: `offset as i16 + delta`, at least zero, back to `u16`.
  function ScrolledMainPanel(offset: nat, delta: RustInts.I16): nat {
    var n := RustInts.AsI16(RustInts.AsI16(offset) + delta);
    if n < 0 then 0 else n
  }

  /// Within the `i32` range the run-info offset moves by `delta` and stops
  /// at zero; it never leaves that range.
  lemma ScrollRunInfoMoves(offset: nat, delta: RustInts.I32)
    ensures ScrolledRunInfo(offset, delta) <= RustInts.I32Max
    ensures offset + delta <= RustInts.I32Max && offset <= RustInts.I32Max ==>
              ScrolledRunInfo(offset, delta) == if offset + delta < 0 then 0 else offset + delta
  {
  }

  /// Within the `i16` range the main-panel offset moves by `delta` and stops
  /// at zero; it never leaves that range.
  lemma ScrollMainPanelMoves(offset: nat, delta: RustInts.I16)
    ensures ScrolledMainPanel(offset, delta) <= RustInts.I16Max
    ensures offset + delta <= RustInts.I16Max && offset <= RustInts.I16Max ==>
              ScrolledMainPanel(offset, delta) == if offset + delta < 0 then 0 else offset + delta
  {
  }

  /// One step down from the largest `i16` wraps to a negative sum, and so
  /// back to the top of the panel.
  lemma ScrollMainPanelWraps()
    ensures ScrolledMainPanel(RustInts.I16Max, 1) == 0
  {
  }

  // ---------------------------------------------------------------------
  // The reducer

  datatype WorkflowsState = WorkflowsState(
    workflows: seq<Workflow>,
    selectedWorkflowId: Option<string>,
    isLoading: bool,
    error: Option<string>,
    recentStatuses: seq<WorkflowStatusUpdate>,
    registeredAgents: seq<AgentInfo>,
    runInfoScrollOffset: nat,
    runInfoFilter: string,
    workflowsFilter: string,
    mainPanelScrollOffset: nat)

  /// `WorkflowsState::default`.
  const Default := WorkflowsState([], None, false, None, [], [], 0, "", "", 0)

  /// The state's fields, to say which of them an action may touch.
  datatype Field = WorkflowsField | SelectedField | LoadingField | ErrorField | StatusesField
                 | AgentsField | RunInfoScrollField | RunInfoFilterField | WorkflowsFilterField
                 | MainPanelScrollField

  /// `s` and `t` agree on every field outside `fs`.
  predicate AgreeOutside(s: WorkflowsState, t: WorkflowsState, fs: set<Field>) {
    && (WorkflowsField !in fs ==> t.workflows == s.workflows)
    && (SelectedField !in fs ==> t.selectedWorkflowId == s.selectedWorkflowId)
    && (LoadingField !in fs ==> t.isLoading == s.isLoading)
    && (ErrorField !in fs ==> t.error == s.error)
    && (StatusesField !in fs ==> t.recentStatuses == s.recentStatuses)
    && (AgentsField !in fs ==> t.registeredAgents == s.registeredAgents)
    && (RunInfoScrollField !in fs ==> t.runInfoScrollOffset == s.runInfoScrollOffset)
    && (RunInfoFilterField !in fs ==> t.runInfoFilter == s.runInfoFilter)
    && (WorkflowsFilterField !in fs ==> t.workflowsFilter == s.workflowsFilter)
    && (MainPanelScrollField !in fs ==> t.mainPanelScrollOffset == s.mainPanelScrollOffset)
  }

  /// The fields each action may change; the actions of other stores change none.
  function Touched(a: Action): set<Field> {
    match a
    case RefreshWorkflows => {LoadingField, ErrorField}
    case WorkflowListLoaded(_) => {WorkflowsField, LoadingField, ErrorField, SelectedField}
    case WorkflowListLoadFailed(_) => {LoadingField, ErrorField}
    case SelectWorkflow(_) => {SelectedField}
    case RecentWorkflowStatusesUpdated(_) => {StatusesField}
    case RegisteredAgentsUpdated(_) => {AgentsField}
    case ScrollRunInfo(_) => {RunInfoScrollField}
    case UpdateRunInfoFilter(_) => {RunInfoFilterField, RunInfoScrollField}
    case UpdateWorkflowsFilter(_) => {WorkflowsFilterField}
    case ScrollMainPanel(_) => {MainPanelScrollField}
    case _ => {}
  }

  /// The reducer's effect on a state snapshot.
  function Step(s: WorkflowsState, a: Action): WorkflowsState {
    match a
    case RefreshWorkflows => s.(isLoading := true, error := None)
    case WorkflowListLoaded(ws) =>
      s.(workflows := SortById(ws), isLoading := false, error := None,
         selectedWorkflowId := if s.selectedWorkflowId.None? && ws != [] then Some(ws[0].id) else s.selectedWorkflowId)
    case WorkflowListLoadFailed(e) => s.(isLoading := false, error := Some(e))
    case SelectWorkflow(id) => s.(selectedWorkflowId := Some(id))
    case RecentWorkflowStatusesUpdated(statuses) => s.(recentStatuses := statuses)
    case RegisteredAgentsUpdated(agents) => s.(registeredAgents := agents)
    case ScrollRunInfo(delta) => s.(runInfoScrollOffset := ScrolledRunInfo(s.runInfoScrollOffset, delta))
    case UpdateRunInfoFilter(f) => s.(runInfoFilter := f, runInfoScrollOffset := 0)
    case UpdateWorkflowsFilter(f) => s.(workflowsFilter := f)
    case ScrollMainPanel(delta) => s.(mainPanelScrollOffset := ScrolledMainPanel(s.mainPanelScrollOffset, delta))
    case _ => s
  }

  /// Each action changes only its own fields.
  lemma StepFrame(s: WorkflowsState, a: Action)
    ensures AgreeOutside(s, Step(s, a), Touched(a))
    ensures Touched(a) == {} ==> Step(s, a) == s
  {
  }

  /// The offsets stay in the ranges of the integer types the source casts
  /// them through.
  predicate OffsetsInRange(s: WorkflowsState) {
    s.runInfoScrollOffset <= RustInts.I32Max && s.mainPanelScrollOffset <= RustInts.I16Max
  }

  lemma StepKeepsOffsetsInRange(s: WorkflowsState, a: Action)
    requires OffsetsInRange(s)
    ensures OffsetsInRange(Step(s, a))
  {
    match a
    case ScrollRunInfo(delta) => ScrollRunInfoMoves(s.runInfoScrollOffset, delta);
    case ScrollMainPanel(delta) => ScrollMainPanelMoves(s.mainPanelScrollOffset, delta);
    case _ =>
  }

  /// A loaded list is kept in id order, holds exactly the workflows loaded,
  /// and ends loading without an error.
  lemma LoadedSorted(s: WorkflowsState, ws: seq<Workflow>)
    ensures SortedById(Step(s, WorkflowListLoaded(ws)).workflows)
    ensures multiset(Step(s, WorkflowListLoaded(ws)).workflows) == multiset(ws)
    ensures !Step(s, WorkflowListLoaded(ws)).isLoading && Step(s, WorkflowListLoaded(ws)).error == None
  {
    SortSorted(ws);
  }

  /// With nothing selected, a nonempty load selects a workflow of the new
  /// list (the first one as received, before sorting); an existing selection
  /// is kept.
  lemma LoadSelects(s: WorkflowsState, ws: seq<Workflow>)
    ensures s.selectedWorkflowId.Some? ==> Step(s, WorkflowListLoaded(ws)).selectedWorkflowId == s.selectedWorkflowId
    ensures s.selectedWorkflowId.None? && ws != [] ==>
              && Step(s, WorkflowListLoaded(ws)).selectedWorkflowId == Some(ws[0].id)
              && IndexOf(Step(s, WorkflowListLoaded(ws)).workflows, ws[0].id).Some?
  {
    if s.selectedWorkflowId.None? && ws != [] {
      var sorted := Step(s, WorkflowListLoaded(ws)).workflows;
      SortSorted(ws);
      assert ws[0] in multiset(ws);
      assert ws[0] in sorted;
    }
  }

  /// Refreshing and then failing leaves the error shown and loading over.
  lemma RefreshThenFail(s: WorkflowsState, e: string)
    ensures var t := Step(Step(s, RefreshWorkflows), WorkflowListLoadFailed(e));
            !t.isLoading && t.error == Some(e) && t.workflows == s.workflows
  {
  }

  // ---------------------------------------------------------------------
  // The store

  /// The store holds one state record behind a lock; the lock is not
  /// modelled.
  class WorkflowsStore {
    var state: WorkflowsState

    /// `new`: the default state.
    constructor ()
      ensures state == Default
    {
      state := Default;
    }

    /// `get_state`: a copy of the state.
    method GetState() returns (r: WorkflowsState)
      ensures r == state
    {
      r := state;
    }

    /// `reduce`.
    method Reduce(a: Action)
      modifies this
      ensures state == Step(old(state), a)
    {
      if a.RefreshWorkflows? {
        state := state.(isLoading := true, error := None);
      } else if a.WorkflowListLoaded? {
        var ws := a.workflows;
        state := state.(workflows := SortById(ws), isLoading := false, error := None);
        if state.selectedWorkflowId.None? && ws != [] {
          state := state.(selectedWorkflowId := Some(ws[0].id));
        }
      } else if a.WorkflowListLoadFailed? {
        state := state.(isLoading := false, error := Some(a.error));
      } else if a.SelectWorkflow? {
        state := state.(selectedWorkflowId := Some(a.workflowId));
      } else if a.RecentWorkflowStatusesUpdated? {
        state := state.(recentStatuses := a.statuses);
      } else if a.RegisteredAgentsUpdated? {
        state := state.(registeredAgents := a.agents);
      } else if a.ScrollRunInfo? {
        ScrollRunInfoBy(a.delta);
      } else if a.UpdateRunInfoFilter? {
        state := state.(runInfoFilter := a.runInfoFilter, runInfoScrollOffset := 0);
      } else if a.UpdateWorkflowsFilter? {
        state := state.(workflowsFilter := a.workflowsFilter);
      } else if a.ScrollMainPanel? {
        ScrollMainPanelBy(a.panelDelta);
      }
    }

    /// The `ScrollRunInfo` arm of `reduce`.
    method ScrollRunInfoBy(delta: RustInts.I32)
      modifies this
      ensures state == Step(old(state), ScrollRunInfo(delta))
    {
      var n := RustInts.AsI32(RustInts.AsI32(state.runInfoScrollOffset) + delta);
      state := state.(runInfoScrollOffset := if n < 0 then 0 else n);
    }

    /// The `ScrollMainPanel` arm of `reduce`.
    method ScrollMainPanelBy(delta: RustInts.I16)
      modifies this
      ensures state == Step(old(state), ScrollMainPanel(delta))
    {
      var n := RustInts.AsI16(RustInts.AsI16(state.mainPanelScrollOffset) + delta);
      state := state.(mainPanelScrollOffset := if n < 0 then 0 else n);
    }

    /// `get_selected_index`: the position of the first workflow with the
    /// selected id, if any.
    method GetSelectedIndex() returns (r: Option<nat>)
      ensures state.selectedWorkflowId.None? ==> r.None?
      ensures r.Some? ==> r.value < |state.workflows| && Some(state.workflows[r.value].id) == state.selectedWorkflowId
      ensures r.Some? ==> forall j :: 0 <= j < r.value ==> Some(state.workflows[j].id) != state.selectedWorkflowId
      ensures r.None? ==> forall j :: 0 <= j < |state.workflows| ==> Some(state.workflows[j].id) != state.selectedWorkflowId
    {
      match state.selectedWorkflowId {
        case None => r := None;
        case Some(id) => r := IndexOf(state.workflows, id);
      }
    }

    /// `get_selected_workflow`: the workflow at the selected index.
    method GetSelectedWorkflow() returns (r: Option<Workflow>)
      ensures r.Some? <==> state.selectedWorkflowId.Some? &&
                           exists j :: 0 <= j < |state.workflows| && state.workflows[j].id == state.selectedWorkflowId.value
      ensures r.Some? ==> r.value in state.workflows && Some(r.value.id) == state.selectedWorkflowId
      ensures r.Some? ==> exists k :: 0 <= k < |state.workflows| && r.value == state.workflows[k] &&
                                      forall j :: 0 <= j < k ==> state.workflows[j].id != r.value.id
    {
      var i := GetSelectedIndex();
      match i {
        case None => r := None;
        case Some(k) => r := Some(state.workflows[k]);
      }
    }
  }
}
