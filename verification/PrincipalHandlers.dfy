/// The principal's request handlers for workflows: staging a workflow from
/// the store on the run queue, handing the front workflow to an agent,
/// listing the store, and the two placeholder status updates. Every handler
/// answers with exit code 0. JSON serialisation is a parameter.
module PrincipalHandlers {
  import opened Wrappers
  import CoreModels
  import opened Replies
  import DataStructures
  import WorkflowModels

  type Workflow = WorkflowModels.Workflow

  /// The workflow store's contents, keyed by workflow id.
  type Store = map<string, Workflow>

  /// `handle_list_workflows`: always succeeds, with the store's JSON text.
  method HandleListWorkflows(workflows: Store, storeJson: Store -> string)
    returns (reply: ClientResponseMessage, code: nat)
    ensures reply.SuccessWithPayload? && Payload(reply) == storeJson(workflows) && code == 0
  {
    reply := SuccessWithPayload(storeJson(workflows));
    code := 0;
  }

  /// `handle_agent_task_status_update`: not implemented yet; it answers
  /// "TBD" and looks at nothing.
  method HandleAgentTaskStatusUpdate(liveAgents: DataStructures.AgentPriorityQueue, taskId: string, status: CoreModels.RunStatus)
    returns (reply: ClientResponseMessage, code: nat)
    ensures reply == SuccessWithPayload("TBD") && code == 0
  {
    reply := SuccessWithPayload("TBD");
    code := 0;
  }

  /// `handle_agent_workflow_status_update`: the same placeholder.
  method HandleAgentWorkflowStatusUpdate(liveAgents: DataStructures.AgentPriorityQueue, taskId: string, status: CoreModels.RunStatus)
    returns (reply: ClientResponseMessage, code: nat)
    ensures reply == SuccessWithPayload("TBD") && code == 0
  {
    reply := SuccessWithPayload("TBD");
    code := 0;
  }

  /// The reply to a run request for a workflow the store does not hold.
  function UnknownWorkflowText(workflowId: string): string {
    "No workflow exists with id " + workflowId
  }

  /// `handle_run_task`: a workflow the store knows is copied to the back of
  /// the queue; an unknown id is a client error and the queue is untouched.
  method HandleRunTask(workflowId: string, workflows: Store, queue: DataStructures.AsyncQueue<Workflow>)
    returns (reply: ClientResponseMessage, code: nat)
    modifies queue
    ensures workflowId in workflows ==> queue.items == old(queue.items) + [workflows[workflowId]] && reply == Success
    ensures workflowId !in workflows ==>
              queue.items == old(queue.items) && reply == ClientError(UnknownWorkflowText(workflowId))
    ensures code == 0
  {
    if workflowId in workflows {
      queue.Put(workflows[workflowId]);
      reply := Success;
    } else {
      reply := ClientError(UnknownWorkflowText(workflowId));
    }
    code := 0;
  }

  /// `handle_fetch_task`: the front workflow, removed and sent as its JSON
  /// text; an empty queue answers a plain success and stays empty.
  method HandleFetchTask(queue: DataStructures.AsyncQueue<Workflow>, agentId: string, toJson: Workflow -> string)
    returns (reply: ClientResponseMessage, code: nat)
    modifies queue
    ensures old(queue.items) == [] ==> reply == Success && queue.items == []
    ensures old(queue.items) != [] ==>
              reply == SuccessWithPayload(toJson(old(queue.items)[0])) && queue.items == old(queue.items)[1..]
    ensures code == 0
  {
    var taskRes := queue.Get();
    if taskRes.Some? {
      reply := SuccessWithPayload(toJson(taskRes.value));
    } else {
      reply := Success;
    }
    code := 0;
  }

  /// A run request followed by a fetch on an empty queue hands out exactly
  /// the requested workflow, or nothing when the id is unknown.
  method RunThenFetch(workflowId: string, workflows: Store, toJson: Workflow -> string)
    returns (ran: ClientResponseMessage, fetched: ClientResponseMessage)
    ensures workflowId in workflows <==> ran == Success
    ensures workflowId in workflows ==> fetched == SuccessWithPayload(toJson(workflows[workflowId]))
    ensures workflowId !in workflows ==> ran.ClientError? && fetched == Success
  {
    var queue := new DataStructures.AsyncQueue<Workflow>();
    var code;
    ran, code := HandleRunTask(workflowId, workflows, queue);
    fetched, code := HandleFetchTask(queue, "agent", toJson);
  }

  /// Two workflows staged one after the other reach agents in the same order.
  method RunRunFetchFetch(a: string, b: string, workflows: Store, toJson: Workflow -> string)
    returns (first: ClientResponseMessage, second: ClientResponseMessage, third: ClientResponseMessage)
    requires a in workflows && b in workflows
    ensures first == SuccessWithPayload(toJson(workflows[a]))
    ensures second == SuccessWithPayload(toJson(workflows[b]))
    ensures third == Success
  {
    var queue := new DataStructures.AsyncQueue<Workflow>();
    var reply, code;
    reply, code := HandleRunTask(a, workflows, queue);
    reply, code := HandleRunTask(b, workflows, queue);
    first, code := HandleFetchTask(queue, "agent", toJson);
    second, code := HandleFetchTask(queue, "agent", toJson);
    third, code := HandleFetchTask(queue, "agent", toJson);
  }
}
