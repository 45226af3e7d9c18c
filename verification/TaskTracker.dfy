/// The dependency tracker an agent keeps while it runs a workflow: tasks
/// whose dependencies have all completed wait in a ready queue, the rest in a
/// dependency list holding the set of tasks each still waits for.
module TaskTracker {
  import opened Wrappers
  import opened Errors
  import opened WorkflowModels

  /// A waiting task and the ids it still waits for.
  type Pending = (string, set<string>)

  /// The ready queue `from_workflow` fills from the first `n` tasks: those
  /// with no or empty `depends`, in table order.
  function ReadyUpTo(ts: TaskList, n: nat): seq<string>
    requires n <= |ts|
  {
    if n == 0 then []
    else ReadyUpTo(ts, n - 1) + (if IsEntry(ts[n - 1].1) then [ts[n - 1].0] else [])
  }

  /// The dependency list `from_workflow` fills from the first `n` tasks: the
  /// others, each with the set of names it depends on.
  function WaitingUpTo(ts: TaskList, n: nat): seq<Pending>
    requires n <= |ts|
  {
    if n == 0 then []
    else WaitingUpTo(ts, n - 1) + (if IsEntry(ts[n - 1].1) then [] else [(ts[n - 1].0, Names(Deps(ts[n - 1].1)))])
  }

  /// Completing `t` releases a waiting task when `t` was in its set and was
  /// the last name there.
  predicate Releases(p: Pending, t: string) {
    t in p.1 && p.1 - {t} == {}
  }

  /// The tasks completing `t` releases from the first `n` waiting entries, in
  /// list order.
  function ReleasedUpTo(g: seq<Pending>, t: string, n: nat): seq<string>
    requires n <= |g|
  {
    if n == 0 then []
    else ReleasedUpTo(g, t, n - 1) + (if Releases(g[n - 1], t) then [g[n - 1].0] else [])
  }

  /// The entries that stay waiting, with `t` taken out of their sets.
  function RemainingUpTo(g: seq<Pending>, t: string, n: nat): seq<Pending>
    requires n <= |g|
  {
    if n == 0 then []
    else RemainingUpTo(g, t, n - 1) + (if Releases(g[n - 1], t) then [] else [(g[n - 1].0, g[n - 1].1 - {t})])
  }

  function Released(g: seq<Pending>, t: string): seq<string> {
    ReleasedUpTo(g, t, |g|)
  }

  function Remaining(g: seq<Pending>, t: string): seq<Pending> {
    RemainingUpTo(g, t, |g|)
  }

  /// The ids of a dependency list, in order.
  function Ids(g: seq<Pending>): seq<string> {
    seq(|g|, k requires 0 <= k < |g| => g[k].0)
  }

  /// `BaseTaskTracker`.
  class Tracker {
    var depGraph: seq<Pending>
    var readyQ: seq<string>

    constructor (depGraph: seq<Pending>, readyQ: seq<string>)
      ensures this.depGraph == depGraph && this.readyQ == readyQ
    {
      this.depGraph := depGraph;
      this.readyQ := readyQ;
    }

    /// `get_next_task`: the front of the ready queue, removed.
    method GetNextTask() returns (r: Option<string>)
      modifies this
      ensures old(readyQ) == [] ==> r == None && readyQ == []
      ensures old(readyQ) != [] ==> r == Some(old(readyQ)[0]) && readyQ == old(readyQ)[1..]
      ensures depGraph == old(depGraph)
    {
      if readyQ == [] {
        r := None;
      } else {
        r := Some(readyQ[0]);
        readyQ := readyQ[1..];
      }
    }

    /// `mark_complete`: takes `t` out of every waiting set; an entry whose set
    /// this empties moves to the back of the ready queue.
    method MarkComplete(t: string)
      modifies this
      ensures depGraph == Remaining(old(depGraph), t)
      ensures readyQ == old(readyQ) + Released(old(depGraph), t)
    {
      var newGraph: seq<Pending> := [];
      var oldGraph := depGraph;
      for i := 0 to |oldGraph|
        invariant newGraph == RemainingUpTo(oldGraph, t, i)
        invariant readyQ == old(readyQ) + ReleasedUpTo(oldGraph, t, i)
      {
        var (id, deps) := oldGraph[i];
        var removed := t in deps;
        deps := deps - {t};
        assert |deps| == 0 <==> deps == {};
        assert removed && |deps| == 0 <==> Releases(oldGraph[i], t);
        if removed && |deps| == 0 {
          readyQ := readyQ + [id];
        } else {
          newGraph := newGraph + [(id, deps)];
        }
      }
      depGraph := newGraph;
    }

    /// `is_empty`: nothing left to hand out and nothing waiting.
    predicate IsEmpty(): (r: bool)
      reads this
      ensures r <==> Count() == 0
    {
      depGraph == [] && readyQ == []
    }

    /// Tasks still to hand out or to wait for.
    function Count(): nat
      reads this
    {
      |depGraph| + |readyQ|
    }
  }

  /// `from_workflow`: validates the workflow, then sorts its tasks into the
  /// ready queue and the dependency list. `ts` is the workflow's task table in
  /// the order its map is walked.
  method FromWorkflow(w: Workflow, parse: string -> Option<int>, ts: TaskList)
    returns (r: Result<Tracker, GenericError>)
    requires DistinctIds(ts) && TaskMap(ts) == w.dag.taskMap
    ensures Validate(w, parse).Err? ==> r == Err(Validate(w, parse).error)
    ensures Validate(w, parse).Ok? ==>
      r.Ok? && fresh(r.value) && r.value.depGraph == WaitingUpTo(ts, |ts|) && r.value.readyQ == ReadyUpTo(ts, |ts|)
  {
    var v := Validate(w, parse);
    if v.Err? {
      return Err(v.error);
    }
    var waiting: seq<Pending> := [];
    var ready: seq<string> := [];
    for i := 0 to |ts|
      invariant waiting == WaitingUpTo(ts, i) && ready == ReadyUpTo(ts, i)
    {
      var (id, task) := ts[i];
      match task.depends {
        case Some(prec) =>
          if prec == [] {
            ready := ready + [id];
          } else {
            var depSet: set<string> := {};
            for j := 0 to |prec|
              invariant depSet == Names(prec[..j])
            {
              assert prec[..j + 1] == prec[..j] + [prec[j]];
              depSet := depSet + {prec[j]};
            }
            assert prec[..|prec|] == prec;
            waiting := waiting + [(id, depSet)];
          }
        case None =>
          ready := ready + [id];
      }
    }
    var tracker := new Tracker(waiting, ready);
    return Ok(tracker);
  }

  // ---------------------------------------------------------------------
  // Properties of the initial split
  // ---------------------------------------------------------------------

  /// The ids of the first `n` tasks, in table order.
  function TaskIdsUpTo(ts: TaskList, n: nat): seq<string>
    requires n <= |ts|
  {
    if n == 0 then [] else TaskIdsUpTo(ts, n - 1) + [ts[n - 1].0]
  }

  lemma IdsSnoc(g: seq<Pending>, p: Pending)
    ensures Ids(g + [p]) == Ids(g) + [p.0]
  {
  }

  /// One task added to the table lands in exactly one of the two queues.
  lemma SplitStep(ts: TaskList, n: nat)
    requires 0 < n <= |ts|
    ensures var id := ts[n - 1].0;
      if IsEntry(ts[n - 1].1) then
        multiset(ReadyUpTo(ts, n)) == multiset(ReadyUpTo(ts, n - 1)) + multiset{id} &&
        multiset(Ids(WaitingUpTo(ts, n))) == multiset(Ids(WaitingUpTo(ts, n - 1)))
      else
        multiset(ReadyUpTo(ts, n)) == multiset(ReadyUpTo(ts, n - 1)) &&
        multiset(Ids(WaitingUpTo(ts, n))) == multiset(Ids(WaitingUpTo(ts, n - 1))) + multiset{id}
  {
    if IsEntry(ts[n - 1].1) {
      assert WaitingUpTo(ts, n) == WaitingUpTo(ts, n - 1);
    } else {
      IdsSnoc(WaitingUpTo(ts, n - 1), (ts[n - 1].0, Names(Deps(ts[n - 1].1))));
    }
  }

  lemma MultisetStep(r0: multiset<string>, i0: multiset<string>, r1: multiset<string>, i1: multiset<string>, x: string)
    requires (r1 == r0 + multiset{x} && i1 == i0) || (r1 == r0 && i1 == i0 + multiset{x})
    ensures r1 + i1 == r0 + i0 + multiset{x}
  {
  }

  /// If the queues hold the first `n - 1` tasks, adding the next task
  /// keeps them holding exactly the first `n`.
  lemma SplitSum(ts: TaskList, n: nat)
    requires 0 < n <= |ts|
    requires multiset(ReadyUpTo(ts, n - 1)) + multiset(Ids(WaitingUpTo(ts, n - 1))) == multiset(TaskIdsUpTo(ts, n - 1))
    ensures multiset(ReadyUpTo(ts, n)) + multiset(Ids(WaitingUpTo(ts, n))) == multiset(TaskIdsUpTo(ts, n))
  {
    SplitStep(ts, n);
    MultisetStep(multiset(ReadyUpTo(ts, n - 1)), multiset(Ids(WaitingUpTo(ts, n - 1))),
      multiset(ReadyUpTo(ts, n)), multiset(Ids(WaitingUpTo(ts, n))), ts[n - 1].0);
    MultisetSnoc(TaskIdsUpTo(ts, n - 1), ts[n - 1].0);
  }

  lemma MultisetSnoc(xs: seq<string>, x: string)
    ensures multiset(xs + [x]) == multiset(xs) + multiset{x}
  {
  }

  /// Every task lands in exactly one of the two queues.
  lemma {:induction false} InitialSplit(ts: TaskList, n: nat)
    requires n <= |ts|
    ensures multiset(ReadyUpTo(ts, n)) + multiset(Ids(WaitingUpTo(ts, n))) == multiset(TaskIdsUpTo(ts, n))
  {
    if n > 0 {
      InitialSplit(ts, n - 1);
      SplitSum(ts, n);
    }
  }

  /// A task starts ready exactly when it is an entry task of the DAG.
  lemma {:induction false} ReadyAreEntries(ts: TaskList, n: nat, x: string)
    requires n <= |ts|
    ensures x in ReadyUpTo(ts, n) <==> x in FirstUpTo(ts, n)
  {
    if n > 0 {
      ReadyAreEntries(ts, n - 1, x);
    }
  }

  /// A waiting entry waits for at least one task, and for exactly the names
  /// its task depends on.
  lemma {:induction false} WaitingSets(ts: TaskList, n: nat, k: nat)
    requires n <= |ts| && k < |WaitingUpTo(ts, n)|
    ensures WaitingUpTo(ts, n)[k].1 != {}
    ensures exists m :: 0 <= m < n && !IsEntry(ts[m].1) && WaitingUpTo(ts, n)[k] == (ts[m].0, Names(Deps(ts[m].1)))
  {
    if k < |WaitingUpTo(ts, n - 1)| {
      WaitingSets(ts, n - 1, k);
    } else {
      var d := Deps(ts[n - 1].1);
      assert d[0] in Names(d);
    }
  }

  // ---------------------------------------------------------------------
  // Properties of `mark_complete`
  // ---------------------------------------------------------------------

  /// Every waiting entry is either released or stays, so the number of tasks
  /// the tracker holds does not change, and neither do their ids.
  lemma {:induction false} MarkCompleteKeepsTasks(g: seq<Pending>, t: string, n: nat)
    requires n <= |g|
    ensures |ReleasedUpTo(g, t, n)| + |RemainingUpTo(g, t, n)| == n
    ensures multiset(ReleasedUpTo(g, t, n)) + multiset(Ids(RemainingUpTo(g, t, n))) == multiset(Ids(g[..n]))
  {
    if n > 0 {
      MarkCompleteKeepsTasks(g, t, n - 1);
      assert Ids(g[..n]) == Ids(g[..n - 1]) + [g[n - 1].0];
      var rest := RemainingUpTo(g, t, n - 1);
      if Releases(g[n - 1], t) {
        assert Ids(RemainingUpTo(g, t, n)) == Ids(rest);
      } else {
        assert Ids(RemainingUpTo(g, t, n)) == Ids(rest) + [g[n - 1].0];
      }
    }
  }

  /// After `mark_complete(t)` no entry waits for `t`, and each entry that
  /// stays waits for what it waited for before, less `t`.
  lemma {:induction false} MarkCompleteRemovesTask(g: seq<Pending>, t: string, n: nat, k: nat)
    requires n <= |g| && k < |RemainingUpTo(g, t, n)|
    ensures t !in RemainingUpTo(g, t, n)[k].1
    ensures exists m :: 0 <= m < n && !Releases(g[m], t) && RemainingUpTo(g, t, n)[k] == (g[m].0, g[m].1 - {t})
  {
    if k < |RemainingUpTo(g, t, n - 1)| {
      MarkCompleteRemovesTask(g, t, n - 1, k);
    }
  }

  /// Completing a task nobody waits for changes nothing.
  lemma {:induction false} MarkCompleteUnknown(g: seq<Pending>, t: string, n: nat)
    requires n <= |g| && forall k :: 0 <= k < |g| ==> t !in g[k].1
    ensures ReleasedUpTo(g, t, n) == [] && RemainingUpTo(g, t, n) == g[..n]
  {
    if n > 0 {
      MarkCompleteUnknown(g, t, n - 1);
      assert g[n - 1].1 - {t} == g[n - 1].1;
      assert g[..n] == g[..n - 1] + [g[n - 1]];
    }
  }

  /// The tracker's count is unchanged by `mark_complete` and drops by one
  /// for each task `get_next_task` hands out.
  method CountAcrossSteps(tr: Tracker, t: string) returns (before: nat, afterComplete: nat, afterNext: nat)
    modifies tr
    ensures afterComplete == before
    ensures old(tr.readyQ) + Released(old(tr.depGraph), t) != [] ==> afterNext == before - 1
  {
    before := tr.Count();
    ghost var g := tr.depGraph;
    tr.MarkComplete(t);
    MarkCompleteKeepsTasks(g, t, |g|);
    afterComplete := tr.Count();
    var _ := tr.GetNextTask();
    afterNext := tr.Count();
  }
}
