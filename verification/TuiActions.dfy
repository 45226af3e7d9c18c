/// The terminal UI's actions: every user intent and every system event that
/// the stores react to, and the key presses the UI receives.
module TuiActions {
  import WorkflowModels
  import RustInts

  datatype TabId = WorkflowsTab | AdminTab

  datatype PanelId = Sidebar | MainPanel | RunInfoPanel

  /// A log line of one workflow step.
  datatype LogLine = LogLine(timestamp: nat, level: string, message: string)

  /// An agent as the principal reports it.
  datatype AgentInfo = AgentInfo(agentId: string, lastPingTimestamp: int, runningTasks: nat)

  /// A workflow status change as the principal reports it.
  datatype WorkflowStatusUpdate = WorkflowStatusUpdate(workflowId: string, workflowInstanceId: string,
                                                       status: string, timestampMs: nat)

  /// The parts of a streamed log message the log viewer uses: the workflow
  /// it belongs to and its full display text.
  datatype LogEvent = LogEvent(workflowId: string, fullText: string)

  datatype Action =
    | SwitchTab(tab: TabId)
    | SelectWorkflow(workflowId: string)
    | FocusPanel(panel: PanelId)
    | ToggleHelp
    | RefreshWorkflows
    | WorkflowListLoaded(workflows: seq<WorkflowModels.Workflow>)
    | WorkflowListLoadFailed(error: string)
    | WorkflowStatusUpdated(workflowId: string, status: string)
    | StepLogsAppended(stepWorkflowId: string, stepId: string, logs: seq<LogLine>)
    | ShowError(message: string)
    | ClearError
    | Quit
    | OpenLogViewer(viewWorkflowId: string)
    | CloseLogViewer
    | ToggleLogMode
    | ToggleVerboseLogging
    | LogReceived(event: LogEvent)
    | ExecuteLogQuery
    | QueryLogsResult(lines: seq<string>)
    | QueryLogsError(queryError: string)
    | PrincipalStatusUpdated(online: bool)
    | RecentWorkflowStatusesUpdated(statuses: seq<WorkflowStatusUpdate>)
    | RegisteredAgentsUpdated(agents: seq<AgentInfo>)
    | ScrollRunInfo(delta: RustInts.I32)
    | UpdateRunInfoFilter(runInfoFilter: string)
    | UpdateWorkflowsFilter(workflowsFilter: string)
    | ScrollMainPanel(panelDelta: RustInts.I16)

  /// The keys the UI distinguishes.
  datatype KeyCode = Char(c: char) | Enter | Esc | Tab | Backspace | Left | Right | Up | Down | PageUp | PageDown | OtherKey

  datatype KeyEventKind = Press | Repeat | Release

  /// A key event: the key, whether Shift was held, and the kind of event.
  datatype KeyEvent = KeyEvent(code: KeyCode, shift: bool, kind: KeyEventKind)

  /// A plain key press, as `KeyEvent::from(code)` builds it.
  function Pressed(code: KeyCode): KeyEvent {
    KeyEvent(code, false, Press)
  }
}
