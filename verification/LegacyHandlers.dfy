/// The first-generation principal's request handlers for the shared task
/// queue: adding a task, handing the front task to an agent, and the
/// placeholder status update. Every handler answers with exit code 0.
module LegacyHandlers {
  import opened Wrappers
  import CoreModels
  import opened Replies
  import Strings
  import Tasks
  import DataStructures

  /// The text an agent receives for a task.
  function TaskText(t: Tasks.Task): string {
    Strings.Join(Tasks.TaskTokens(t), "|")
  }

  /// `handle_agent_task_status_update`: not implemented yet; it answers
  /// "TBD" and looks at nothing.
  method HandleAgentTaskStatusUpdate(liveAgents: DataStructures.AgentPriorityQueue, taskId: string, status: CoreModels.RunStatus)
    returns (reply: ClientResponseMessage, code: nat)
    ensures reply == SuccessWithPayload("TBD") && code == 0
  {
    reply := SuccessWithPayload("TBD");
    code := 0;
  }

  /// `handle_add_task`: the task goes to the back of the queue.
  method HandleAddTask(task: Tasks.Task, queue: DataStructures.AsyncQueue<Tasks.Task>)
    returns (reply: ClientResponseMessage, code: nat)
    modifies queue
    ensures queue.items == old(queue.items) + [task]
    ensures queue.Size() == old(queue.Size()) + 1
    ensures reply == Success && code == 0
  {
    queue.Put(task);
    reply := Success;
    code := 0;
  }

  /// `handle_fetch_task`: the front task, removed and sent as its text; an
  /// empty queue answers a plain success and stays empty.
  method HandleFetchTask(queue: DataStructures.AsyncQueue<Tasks.Task>, agentId: string)
    returns (reply: ClientResponseMessage, code: nat)
    modifies queue
    ensures old(queue.items) == [] ==> reply == Success && queue.items == []
    ensures old(queue.items) != [] ==>
              reply == SuccessWithPayload(TaskText(old(queue.items)[0])) &&
              queue.items == old(queue.items)[1..] &&
              queue.Size() + 1 == old(queue.Size())
    ensures code == 0
  {
    var taskRes := queue.Get();
    if taskRes.Some? {
      var text := Tasks.ToString(taskRes.value);
      reply := SuccessWithPayload(text);
    } else {
      reply := Success;
    }
    code := 0;
  }

  /// Adding a task to an empty queue and fetching it sends that task, whose
  /// text reads back as the task itself when its fields are plain text; the
  /// queue is empty again afterwards.
  method AddThenFetch(task: Tasks.Task) returns (added: ClientResponseMessage, fetched: ClientResponseMessage, left: nat)
    ensures added == Success && left == 0
    ensures fetched.SuccessWithPayload? && Payload(fetched) == TaskText(task)
    ensures Tasks.PlainTask(task) && task.pt.args != Some([]) ==>
              Tasks.ParseTaskString(Payload(fetched), '|') == Ok(task)
  {
    var queue := new DataStructures.AsyncQueue<Tasks.Task>();
    var code;
    added, code := HandleAddTask(task, queue);
    fetched, code := HandleFetchTask(queue, "agent");
    left := queue.Size();
    if Tasks.PlainTask(task) {
      Tasks.TaskRoundTrip(task);
    }
  }
}
