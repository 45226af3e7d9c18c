/// The task graph of a workflow and the `Workflow` record: building the DAG
/// from the task table with its cycle check, the entry tasks, the dependents
/// of a task, and the record's equality, summary map and start-time check.
module WorkflowModels {
  import opened Wrappers
  import opened Errors
  import Graphs
  import Workflows

  datatype SubprocessTask = SubprocessTask(cmd: string, args: seq<string>)

  datatype WfTask = WfTask(name: string, description: Option<string>, depends: Option<seq<string>>, config: SubprocessTask)

  /// The task table of a workflow file as (task id, task) pairs, in the
  /// iteration order of the map that holds it.
  type TaskList = seq<(string, WfTask)>

  /// The pairs come from a map, so no id occurs twice.
  predicate DistinctIds(ts: TaskList) {
    forall i, j :: 0 <= i < j < |ts| ==> ts[i].0 != ts[j].0
  }

  function Deps(t: WfTask): seq<string> {
    if t.depends.Some? then t.depends.value else []
  }

  /// A task with no `depends`, or an empty one, starts the workflow.
  predicate IsEntry(t: WfTask) {
    t.depends.None? || t.depends.value == []
  }

  /// The edges one task contributes: dependency -> task, in listed order.
  function EdgesOf(id: string, deps: seq<string>): seq<Graphs.Edge> {
    seq(|deps|, k requires 0 <= k < |deps| => (deps[k], id))
  }

  /// The edges the first `n` tasks contribute, task by task.
  function EdgesUpTo(ts: TaskList, n: nat): seq<Graphs.Edge>
    requires n <= |ts|
  {
    if n == 0 then [] else EdgesUpTo(ts, n - 1) + EdgesOf(ts[n - 1].0, Deps(ts[n - 1].1))
  }

  function AllEdges(ts: TaskList): seq<Graphs.Edge> {
    EdgesUpTo(ts, |ts|)
  }

  /// The names listed in `s`.
  function Names(s: seq<string>): set<string> {
    set d | d in s
  }

  /// Every name the first `n` tasks make a node of: their ids and the names
  /// they depend on.
  function NodesUpTo(ts: TaskList, n: nat): set<string>
    requires n <= |ts|
  {
    if n == 0 then {} else NodesUpTo(ts, n - 1) + {ts[n - 1].0} + Names(Deps(ts[n - 1].1))
  }

  function NodesOf(ts: TaskList): set<string> {
    NodesUpTo(ts, |ts|)
  }

  function FirstUpTo(ts: TaskList, n: nat): set<string>
    requires n <= |ts|
  {
    if n == 0 then {} else FirstUpTo(ts, n - 1) + (if IsEntry(ts[n - 1].1) then {ts[n - 1].0} else {})
  }

  function FirstOf(ts: TaskList): set<string> {
    FirstUpTo(ts, |ts|)
  }

  function TaskMapUpTo(ts: TaskList, n: nat): map<string, WfTask>
    requires n <= |ts|
  {
    if n == 0 then map[] else TaskMapUpTo(ts, n - 1)[ts[n - 1].0 := ts[n - 1].1]
  }

  function TaskMap(ts: TaskList): map<string, WfTask> {
    TaskMapUpTo(ts, |ts|)
  }

  /// `WorkFlowDAG`: the node names, the edges in insertion order, the task
  /// table and the entry tasks.
  datatype Dag = Dag(name: string, nodes: set<string>, edges: seq<Graphs.Edge>,
                     taskMap: map<string, WfTask>, firstTasks: set<string>)

  /// The DAG `from_tasks` builds from an acyclic table.
  function BuiltDag(name: string, ts: TaskList): Dag {
    Dag(name, NodesOf(ts), AllEdges(ts), TaskMap(ts), FirstOf(ts))
  }

  /// The error for an edge the graph refuses; `libText` is the graph
  /// library's own rendering of its refusal.
  function CycleMessage(e: Graphs.Edge, libText: string): string {
    "Invalid Workflow. DAG edge '" + e.0 + "'->'" + e.1 + "' causes a cycle. Error: " + libText
  }

  lemma EdgesOfSnoc(id: string, deps: seq<string>, dep: string)
    ensures EdgesOf(id, deps + [dep]) == EdgesOf(id, deps) + [(dep, id)]
  {
  }

  lemma {:induction false} EdgesPrefix(ts: TaskList, i: nat, n: nat)
    requires i <= n <= |ts|
    ensures EdgesUpTo(ts, i) <= EdgesUpTo(ts, n)
    decreases n - i
  {
    if i < n {
      EdgesPrefix(ts, i, n - 1);
    }
  }

  /// The edge the loop refuses is the first refused edge of the whole table,
  /// so the table has a cycle.
  lemma Rejection(ts: TaskList, i: nat, j: nat)
    requires i < |ts| && j < |Deps(ts[i].1)|
    requires Graphs.AllAccepted(EdgesUpTo(ts, i) + EdgesOf(ts[i].0, Deps(ts[i].1)[..j]))
    requires Graphs.Reaches(EdgesUpTo(ts, i) + EdgesOf(ts[i].0, Deps(ts[i].1)[..j]), ts[i].0, Deps(ts[i].1)[j])
    ensures Graphs.RefusedAt(AllEdges(ts), |EdgesUpTo(ts, i)| + j)
    ensures AllEdges(ts)[|EdgesUpTo(ts, i)| + j] == (Deps(ts[i].1)[j], ts[i].0)
    ensures Graphs.HasCycle(AllEdges(ts))
  {
    var deps := Deps(ts[i].1);
    var done := EdgesUpTo(ts, i) + EdgesOf(ts[i].0, deps[..j]);
    var all := AllEdges(ts);
    var k := |done|;
    EdgesPrefix(ts, i + 1, |ts|);
    assert EdgesUpTo(ts, i + 1) <= all;
    assert all[..k] == done[..k];
    assert all[k] == (deps[j], ts[i].0);
    Graphs.SamePrefix(all, done, k);
    Graphs.RefusedNotAccepted(all, k, |all|);
    Graphs.AcceptedIffAcyclic(all);
  }

  /// The inner loop of `from_tasks`: adds an edge from each dependency of
  /// task `id` in turn, stopping at the first one the graph refuses (returned
  /// as its position in `deps`).
  method LinkDependencies(edges: seq<Graphs.Edge>, id: string, deps: seq<string>)
    returns (r: Result<seq<Graphs.Edge>, nat>)
    requires Graphs.AllAccepted(edges)
    ensures r.Ok? ==> r.value == edges + EdgesOf(id, deps) && Graphs.AllAccepted(r.value)
    ensures r.Err? ==> r.error < |deps| && Graphs.AllAccepted(edges + EdgesOf(id, deps[..r.error])) &&
                       Graphs.Reaches(edges + EdgesOf(id, deps[..r.error]), id, deps[r.error])
  {
    var current := edges;
    var j := 0;
    while j < |deps|
      invariant 0 <= j <= |deps|
      invariant current == edges + EdgesOf(id, deps[..j])
      invariant Graphs.AllAccepted(current)
    {
      var dep := deps[j];
      if Graphs.Reaches(current, id, dep) {
        return Err(j);
      }
      Graphs.AcceptedAppend(current, (dep, id));
      assert deps[..j + 1] == deps[..j] + [dep];
      EdgesOfSnoc(id, deps[..j], dep);
      current := current + [(dep, id)];
      j := j + 1;
    }
    assert deps[..j] == deps;
    return Ok(current);
  }

  /// `from_tasks`: walks the table, adds each task's node, records the entry
  /// tasks and adds an edge from each dependency, refusing the first edge
  /// whose task already reaches its dependency (a self-dependency included).
  method FromTasks(name: string, ts: TaskList, libText: string) returns (r: Result<Dag, GenericError>)
    ensures r.Ok? <==> !Graphs.HasCycle(AllEdges(ts))
    ensures r.Ok? ==> r.value == BuiltDag(name, ts)
    ensures r.Err? ==> exists k :: Graphs.RefusedAt(AllEdges(ts), k) &&
                                  r.error == WorkflowError(CycleMessage(AllEdges(ts)[k], libText))
  {
    var nodes: set<string> := {};
    var edges: seq<Graphs.Edge> := [];
    var first: set<string> := {};
    var i := 0;
    while i < |ts|
      invariant 0 <= i <= |ts|
      invariant nodes == NodesUpTo(ts, i)
      invariant edges == EdgesUpTo(ts, i)
      invariant first == FirstUpTo(ts, i)
      invariant Graphs.AllAccepted(edges)
    {
      var id := ts[i].0;
      var task := ts[i].1;
      var deps := Deps(task);
      nodes := nodes + {id} + Names(deps);
      if task.depends.None? || task.depends.value == [] {
        first := first + {id};
      }
      assert nodes == NodesUpTo(ts, i + 1) && first == FirstUpTo(ts, i + 1);
      ghost var next := EdgesUpTo(ts, i + 1);
      assert next == edges + EdgesOf(id, deps);
      var linked := LinkDependencies(edges, id, deps);
      match linked {
        case Err(j) =>
          Rejection(ts, i, j);
          ghost var k := |edges| + j;
          assert Graphs.RefusedAt(AllEdges(ts), k) && AllEdges(ts)[k] == (deps[j], id);
          return Err(WorkflowError(CycleMessage((deps[j], id), libText)));
        case Ok(es) =>
          assert es == next;
          edges := es;
      }
      i := i + 1;
    }
    Graphs.AcceptedIffAcyclic(edges);
    r := Ok(Dag(name, nodes, edges, TaskMap(ts), first));
  }

  // ---------------------------------------------------------------------
  // What the built graph holds
  // ---------------------------------------------------------------------

  /// A name is a node exactly when it is a task id or some task depends on it.
  lemma {:induction false} NodesMembers(ts: TaskList, n: nat, x: string)
    requires n <= |ts|
    ensures x in NodesUpTo(ts, n) <==> exists k :: 0 <= k < n && (ts[k].0 == x || x in Deps(ts[k].1))
  {
    if n > 0 {
      NodesMembers(ts, n - 1, x);
    }
  }

  /// The entry tasks are exactly the tasks with no or empty `depends`.
  lemma {:induction false} FirstMembers(ts: TaskList, n: nat, x: string)
    requires n <= |ts|
    ensures x in FirstUpTo(ts, n) <==> exists k :: 0 <= k < n && ts[k].0 == x && IsEntry(ts[k].1)
  {
    if n > 0 {
      FirstMembers(ts, n - 1, x);
    }
  }

  /// The task map holds every listed task under its id, and nothing else.
  lemma {:induction false} TaskMapLookup(ts: TaskList, n: nat)
    requires n <= |ts| && DistinctIds(ts)
    ensures forall k :: 0 <= k < n ==> ts[k].0 in TaskMapUpTo(ts, n) && TaskMapUpTo(ts, n)[ts[k].0] == ts[k].1
    ensures forall x :: x in TaskMapUpTo(ts, n) ==> exists k :: 0 <= k < n && ts[k].0 == x
  {
    if n > 0 {
      TaskMapLookup(ts, n - 1);
    }
  }

  /// An edge is present exactly when its target task lists its source.
  lemma {:induction false} EdgesMembers(ts: TaskList, n: nat, e: Graphs.Edge)
    requires n <= |ts|
    ensures e in EdgesUpTo(ts, n) <==> exists k :: 0 <= k < n && ts[k].0 == e.1 && e.0 in Deps(ts[k].1)
  {
    if n > 0 {
      EdgesMembers(ts, n - 1, e);
      var t := ts[n - 1];
      if e in EdgesOf(t.0, Deps(t.1)) {
        var m :| 0 <= m < |Deps(t.1)| && EdgesOf(t.0, Deps(t.1))[m] == e;
        assert Deps(t.1)[m] == e.0;
      }
      if e.1 == t.0 && e.0 in Deps(t.1) {
        var m :| 0 <= m < |Deps(t.1)| && Deps(t.1)[m] == e.0;
        assert EdgesOf(t.0, Deps(t.1))[m] == e;
      }
    }
  }

  /// `get_first_tasks` of a built DAG: the tasks with no or empty `depends`.
  lemma FirstTasksExact(name: string, ts: TaskList, x: string)
    requires DistinctIds(ts)
    ensures x in FirstOf(ts) <==> x in TaskMap(ts) && IsEntry(TaskMap(ts)[x])
  {
    FirstMembers(ts, |ts|, x);
    TaskMapLookup(ts, |ts|);
  }

  /// `get_task`: the task stored under an id.
  function GetTask(d: Dag, id: string): Option<WfTask> {
    if id in d.taskMap then Some(d.taskMap[id]) else None
  }

  /// Looking up a task of a built DAG finds the listed task, and an id that
  /// names no task finds nothing, even when it is a dependency node.
  lemma GetTaskOfBuilt(name: string, ts: TaskList, id: string)
    requires DistinctIds(ts)
    ensures (exists k :: 0 <= k < |ts| && ts[k].0 == id) ==>
      exists k :: 0 <= k < |ts| && ts[k].0 == id && GetTask(BuiltDag(name, ts), id) == Some(ts[k].1)
    ensures (forall k :: 0 <= k < |ts| ==> ts[k].0 != id) ==>
      GetTask(BuiltDag(name, ts), id) == None
  {
    TaskMapLookup(ts, |ts|);
  }

  /// The targets of the edges leaving `t`, newest edge first (the order the
  /// graph library walks a node's children in).
  function Children(es: seq<Graphs.Edge>, t: string): seq<string>
    decreases |es|
  {
    if es == [] then []
    else Children(es[1..], t) + (if es[0].0 == t then [es[0].1] else [])
  }

  lemma {:induction false} ChildrenMembers(es: seq<Graphs.Edge>, t: string, x: string)
    ensures x in Children(es, t) <==> (t, x) in es
    decreases |es|
  {
    if es != [] {
      ChildrenMembers(es[1..], t, x);
      assert es == [es[0]] + es[1..];
    }
  }

  /// `get_dependents`: an unknown node is an error; otherwise the children of
  /// the node, walked newest edge first.
  method GetDependents(d: Dag, t: string) returns (r: Result<seq<string>, GenericError>)
    ensures t !in d.nodes ==> r == Err(RuntimeError("task id " + t + " does not exist"))
    ensures t in d.nodes ==> r == Ok(Children(d.edges, t))
  {
    if t !in d.nodes {
      return Err(RuntimeError("task id " + t + " does not exist"));
    }
    var deps: seq<string> := [];
    var k := |d.edges|;
    while k > 0
      invariant 0 <= k <= |d.edges|
      invariant deps == Children(d.edges[k..], t)
    {
      k := k - 1;
      assert d.edges[k..][1..] == d.edges[k + 1..];
      if d.edges[k].0 == t {
        deps := deps + [d.edges[k].1];
      }
    }
    assert d.edges[0..] == d.edges;
    return Ok(deps);
  }

  /// In a built DAG the dependents of `t` are exactly the tasks that list
  /// `t` in their `depends`, and `t` is known exactly when it is a task or a
  /// dependency.
  lemma DependentsExact(ts: TaskList, t: string, x: string)
    ensures x in Children(AllEdges(ts), t) <==> exists k :: 0 <= k < |ts| && ts[k].0 == x && t in Deps(ts[k].1)
    ensures t in NodesOf(ts) <==> exists k :: 0 <= k < |ts| && (ts[k].0 == t || t in Deps(ts[k].1))
  {
    ChildrenMembers(AllEdges(ts), t, x);
    EdgesMembers(ts, |ts|, (t, x));
    NodesMembers(ts, |ts|, t);
  }

  // ---------------------------------------------------------------------
  // The workflow record
  // ---------------------------------------------------------------------

  /// The fields a workflow file declares.
  datatype InnerWorkflow = InnerWorkflow(name: string, cron: Option<string>, description: Option<string>,
                                         startTime: Option<string>, tasks: TaskList)

  datatype Workflow = Workflow(id: string, name: string, description: Option<string>, path: string,
                               dag: Dag, cron: Option<string>, startTime: Option<string>)

  /// `eq`: two workflows are equal when their id, name, path and cron agree.
  predicate Same(a: Workflow, b: Workflow) {
    a.id == b.id && a.name == b.name && a.path == b.path && a.cron == b.cron
  }

  /// `ne`, which the source writes out on its own: it is the negation of `eq`.
  predicate Differ(a: Workflow, b: Workflow): (r: bool)
    ensures r <==> !Same(a, b)
  {
    a.id != b.id || a.name != b.name || a.path != b.path || a.cron != b.cron
  }

  /// The description, the DAG and the start time play no part in equality.
  lemma SameIgnoresOtherFields(w: Workflow, description: Option<string>, dag: Dag, startTime: Option<string>)
    ensures Same(w, w.(description := description, dag := dag, startTime := startTime))
  {
  }

  /// `to_hashmap`: five entries; a missing description becomes "" and a
  /// missing cron or start time "NO SCHEDULE".
  function ToHashmap(w: Workflow): (r: map<string, string>)
    ensures r.Keys == {"name", "description", "path", "cron", "start_time"}
    ensures r["name"] == w.name && r["path"] == w.path
    ensures r["description"] == (if w.description.Some? then w.description.value else "")
    ensures r["cron"] == (if w.cron.Some? then w.cron.value else "NO SCHEDULE")
    ensures r["start_time"] == (if w.startTime.Some? then w.startTime.value else "NO SCHEDULE")
  {
    map["name" := w.name,
        "description" := match w.description case Some(d) => d case None => "",
        "path" := w.path,
        "cron" := match w.cron case Some(c) => c case None => "NO SCHEDULE",
        "start_time" := match w.startTime case Some(t) => t case None => "NO SCHEDULE"]
  }

  /// `start_time_utc`. `parse` stands for the date-time parser of section 5.6
  /// of RFC 3339, giving the instant in milliseconds of UTC or nothing.
  function StartTimeUtc(w: Workflow, parse: string -> Option<int>): (r: Result<int, GenericError>)
    ensures w.startTime.None? ==> r == Err(ParseError("No start_time defined for workflow"))
    ensures w.startTime.Some? && parse(w.startTime.value).None? ==>
      r == Err(WorkflowError("Start time is not a valid ISO 8601 datetime"))
    ensures r.Ok? <==> w.startTime.Some? && parse(w.startTime.value).Some?
    ensures r.Ok? ==> r.value == parse(w.startTime.value).value
  {
    match w.startTime
    case None => Err(ParseError("No start_time defined for workflow"))
    case Some(t) =>
      match parse(t)
      case Some(instant) => Ok(instant)
      case None => Err(WorkflowError("Start time is not a valid ISO 8601 datetime"))
  }

  /// `validate` succeeds exactly when the start time can be read, and
  /// otherwise passes its error on.
  function Validate(w: Workflow, parse: string -> Option<int>): (r: Result<(), GenericError>)
    ensures r.Ok? <==> w.startTime.Some? && parse(w.startTime.value).Some?
    ensures r.Err? ==> StartTimeUtc(w, parse) == Err(r.error)
  {
    match StartTimeUtc(w, parse)
    case Ok(_) => Ok(())
    case Err(e) => Err(e)
  }

  /// The record `new` assembles once the DAG is built: the id derived from
  /// the path, or that derivation's error.
  function Assembled(path: string, inner: InnerWorkflow, workflowDir: string): Result<Workflow, GenericError> {
    match Workflows.WorkflowId(path, workflowDir)
    case Err(e) => Err(e)
    case Ok(id) => Ok(Workflow(id, inner.name, inner.description, path, BuiltDag(inner.name, inner.tasks),
                               inner.cron, inner.startTime))
  }

  /// `Workflow::new` over the already-deserialised file (`parsed` carries the
  /// deserialiser's error text): the DAG is built first, so a cycle is
  /// reported even when the path gives no id.
  method NewWorkflow(path: string, parsed: Result<InnerWorkflow, string>, workflowDir: string, libText: string)
    returns (r: Result<Workflow, GenericError>)
    ensures parsed.Err? ==> r == Err(ParseError("Failed to parse workflow yaml. Error: " + parsed.error))
    ensures parsed.Ok? && Graphs.HasCycle(AllEdges(parsed.value.tasks)) ==> r.Err? && r.error.WorkflowError?
    ensures parsed.Ok? && !Graphs.HasCycle(AllEdges(parsed.value.tasks)) ==> r == Assembled(path, parsed.value, workflowDir)
  {
    match parsed {
      case Err(e) =>
        return Err(ParseError("Failed to parse workflow yaml. Error: " + e));
      case Ok(inner) =>
        var dag := FromTasks(inner.name, inner.tasks, libText);
        if dag.Err? {
          return Err(dag.error);
        }
        var id := Workflows.PathToWorkflowId(path, workflowDir);
        if id.Err? {
          return Err(id.error);
        }
        return Ok(Workflow(id.value, inner.name, inner.description, path, dag.value, inner.cron, inner.startTime));
    }
  }

  /// `from_yaml` after the file has been read: `new`, then `validate`.
  method FromYaml(path: string, parsed: Result<InnerWorkflow, string>, workflowDir: string, libText: string,
                  parse: string -> Option<int>)
    returns (r: Result<Workflow, GenericError>)
    ensures r.Ok? <==> parsed.Ok? && !Graphs.HasCycle(AllEdges(parsed.value.tasks)) &&
                       Assembled(path, parsed.value, workflowDir).Ok? &&
                       Validate(Assembled(path, parsed.value, workflowDir).value, parse).Ok?
    ensures r.Ok? ==> r == Assembled(path, parsed.value, workflowDir) && StartTimeUtc(r.value, parse).Ok?
  {
    var w := NewWorkflow(path, parsed, workflowDir, libText);
    if w.Err? {
      return w;
    }
    var v := Validate(w.value, parse);
    if v.Err? {
      return Err(v.error);
    }
    return w;
  }
}
