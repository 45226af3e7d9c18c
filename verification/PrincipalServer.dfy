/// The principal server: it keeps the live agents, the queue of staged
/// workflows and the workflow store, and answers one client command at a
/// time. The clock and JSON serialisation are parameters.
module Principal {
  import opened Wrappers
  import opened Errors
  import opened CoreModels
  import Replies
  import ApiPrincipal
  import DataStructures
  import PrincipalHandlers

  type Workflow = PrincipalHandlers.Workflow

  class PrincipalServer {
    const liveAgents: DataStructures.AgentPriorityQueue
    const taskQueue: DataStructures.AsyncQueue<Workflow>
    /// The workflow store, which only the store's own refresh changes.
    var workflows: PrincipalHandlers.Store

    ghost predicate Valid()
      reads this, liveAgents
    {
      liveAgents.Valid()
    }

    /// `new`: no agents, nothing staged.
    constructor (workflows: PrincipalHandlers.Store)
      ensures Valid() && liveAgents.Live() == map[] && taskQueue.items == []
      ensures this.workflows == workflows
      ensures fresh(liveAgents) && fresh(taskQueue)
    {
      this.workflows := workflows;
      liveAgents := new DataStructures.AgentPriorityQueue();
      taskQueue := new DataStructures.AsyncQueue<Workflow>();
    }

    /// `register_agent`: a known agent gets the new heartbeat time and
    /// keeps its place; an unknown one is added with no running tasks.
    /// Either way the reply is a success with exit code 0.
    method RegisterAgent(agentId: string, now: int) returns (reply: Replies.ClientResponseMessage, code: nat)
      requires Valid()
      modifies liveAgents
      ensures Valid()
      ensures old(agentId in liveAgents.Live()) ==>
                liveAgents.Live() == old(liveAgents.Live())[agentId := old(liveAgents.Live())[agentId].UpdateTimestamp(now)]
      ensures old(agentId !in liveAgents.Live()) ==>
                liveAgents.Live() == old(liveAgents.Live())[agentId := NewAgentMeta(agentId, now)]
      ensures reply == Replies.Success && code == 0
    {
      var updateResult := liveAgents.UpdateTimestamp(agentId, now);
      if updateResult.Err? {
        liveAgents.Push(NewAgentMeta(agentId, now));
      }
      reply := Replies.Success;
      code := 0;
    }

    /// `handle_client_message`: each command goes to its handler. The
    /// server's command type has no `GETRECENTSTATUSES` or
    /// `GETREGISTEREDAGENTS`; every other command is answered with exit code
    /// 0, so none of them stops the server.
    method HandleClientMessage(msg: ApiPrincipal.PrincipalApi, now: int,
                               storeJson: PrincipalHandlers.Store -> string, toJson: Workflow -> string)
      returns (reply: Replies.ClientResponseMessage, code: nat)
      requires Valid()
      requires !msg.GetRecentWorkflowStatuses? && !msg.GetRegisteredAgents?
      modifies liveAgents, taskQueue
      ensures Valid() && code == 0
      ensures !msg.RegisterAgent? ==> unchanged(liveAgents)
      ensures !msg.RunTask? && !msg.FetchWorkflow? ==> unchanged(taskQueue)
      ensures msg.Ping? ==> reply == Replies.Pong
      ensures msg.ListWorkflowStore? ==> reply == Replies.SuccessWithPayload(storeJson(workflows))
      ensures msg.RunTask? && msg.taskId in workflows ==>
                reply == Replies.Success && taskQueue.items == old(taskQueue.items) + [workflows[msg.taskId]]
      ensures msg.RunTask? && msg.taskId !in workflows ==>
                reply == Replies.ClientError(PrincipalHandlers.UnknownWorkflowText(msg.taskId))
      ensures msg.RegisterAgent? ==> reply == Replies.Success && msg.agentId in liveAgents.Live()
      ensures msg.RegisterAgent? ==> liveAgents.Live()[msg.agentId].lastPing == now
      ensures msg.WorkflowStatusUpdate? || msg.TaskStatusUpdate? ==> reply == Replies.SuccessWithPayload("TBD")
      ensures msg.FetchWorkflow? && old(taskQueue.items) == [] ==> reply == Replies.Success && taskQueue.items == []
      ensures msg.FetchWorkflow? && old(taskQueue.items) != [] ==>
                reply == Replies.SuccessWithPayload(toJson(old(taskQueue.items)[0])) &&
                taskQueue.items == old(taskQueue.items)[1..]
      ensures msg.QueryLogs? ==> reply == Replies.Success
    {
      match msg {
        case Ping =>
          reply, code := Replies.Pong, 0;
        case ListWorkflowStore =>
          reply, code := PrincipalHandlers.HandleListWorkflows(workflows, storeJson);
        case RunTask(taskId) =>
          reply, code := PrincipalHandlers.HandleRunTask(taskId, workflows, taskQueue);
        case RegisterAgent(agentId) =>
          reply, code := RegisterAgent(agentId, now);
        case WorkflowStatusUpdate(_, workflowId, _, status) =>
          reply, code := PrincipalHandlers.HandleAgentWorkflowStatusUpdate(liveAgents, workflowId, status);
        case TaskStatusUpdate(_, taskId, _, _, status) =>
          reply, code := PrincipalHandlers.HandleAgentTaskStatusUpdate(liveAgents, taskId, status);
        case FetchWorkflow(agentId) =>
          reply, code := PrincipalHandlers.HandleFetchTask(taskQueue, agentId, toJson);
        case QueryLogs(_, _, _, _, _) =>
          reply, code := Replies.Success, 0;
      }
    }
  }

  /// Registering the same agent twice keeps a single entry, carrying the
  /// later heartbeat: one pop hands it out and the next finds no agents.
  method RegisterTwiceThenPop(agentId: string, t1: int, t2: int, workflows: PrincipalHandlers.Store)
    returns (first: Result<AgentMeta, GenericError>, second: Result<AgentMeta, GenericError>)
    ensures first == Ok(AgentMeta(agentId, 0, t2))
    ensures second == Err(MissingAgents)
  {
    var server := new PrincipalServer(workflows);
    RegisterTwice(server, agentId, t1, t2);
    first, second := PopTwice(server.liveAgents, AgentMeta(agentId, 0, t2));
  }

  /// Two registrations of one agent into an empty server.
  method RegisterTwice(server: PrincipalServer, agentId: string, t1: int, t2: int)
    requires server.Valid() && server.liveAgents.Live() == map[]
    modifies server.liveAgents
    ensures server.Valid() && server.liveAgents.Live() == map[agentId := AgentMeta(agentId, 0, t2)]
  {
    var reply, code := server.RegisterAgent(agentId, t1);
    reply, code := server.RegisterAgent(agentId, t2);
  }

  /// Popping a queue that holds one agent twice.
  method PopTwice(q: DataStructures.AgentPriorityQueue, meta: AgentMeta)
    returns (first: Result<AgentMeta, GenericError>, second: Result<AgentMeta, GenericError>)
    requires q.Valid() && q.Live() == map[meta.agentId := meta]
    modifies q
    ensures first == Ok(meta) && second == Err(MissingAgents)
  {
    ghost var live := q.Live();
    assert meta.agentId in live;
    first := q.Pop();
    assert first.value.agentId in live;
    assert q.Live() == live - {meta.agentId} == map[];
    second := q.Pop();
  }
}
