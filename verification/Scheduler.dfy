/// The cron scheduler: each workflow with a cron expression has one entry in
/// a max-heap keyed by its negated next run time, so the top of the heap is
/// the earliest run. The scheduler remembers the top it last peeked, waits
/// until that time has come, pops the workflow, has it run, and puts its next
/// run back. Times are Unix milliseconds.
module Scheduler {
  import opened Wrappers
  import opened Errors
  import opened WorkflowModels

  // ---------------------------------------------------------------------
  // The cron library and the next run
  // ---------------------------------------------------------------------

  /// The cron library the scheduler calls: `check(c)` is the text of the
  /// error `Schedule::from_str` reports for `c`, or None when `c` parses;
  /// `fireAfter(c, t)` is the first time strictly after `t` at which `c`
  /// fires, if there is one.
  datatype CronLib = CronLib(check: string -> Option<string>, fireAfter: (string, int) -> Option<int>)

  /// What the library promises: the fire time it names is after `t`.
  ghost predicate FiresAfter(lib: CronLib) {
    forall c, t :: lib.fireAfter(c, t).Some? ==> lib.fireAfter(c, t).value > t
  }

  const NoNextRunText: string :=
    "Unable to determine next run schedule for workflow `{}`. Perhaps can only be in past?"

  function Later(a: int, b: int): int {
    if a > b then a else b
  }

  /// `next_run_from_cron`: the first fire of `cron` after the later of the
  /// start time and `now`. A cron that does not parse is reported before a
  /// start time that is missing or malformed.
  function NextRunFromCron(cron: string, start: Result<int, GenericError>, now: int, lib: CronLib)
    : Result<int, GenericError>
  {
    match lib.check(cron)
    case Some(e) => Err(ParseError("Schedule " + cron + " is not a valid crontab. Error: " + e))
    case None =>
      match start
      case Err(e) => Err(e)
      case Ok(s) =>
        var actualStart := if s > now then s else now;
        match lib.fireAfter(cron, actualStart)
        case Some(t) => Ok(t)
        case None => Err(RuntimeError(NoNextRunText))
  }

  /// The outcomes of `next_run_from_cron`, error cases first.
  lemma NextRunOutcomes(cron: string, start: Result<int, GenericError>, now: int, lib: CronLib)
    ensures var r := NextRunFromCron(cron, start, now, lib);
      && (lib.check(cron).Some? ==>
           r == Err(ParseError("Schedule " + cron + " is not a valid crontab. Error: " + lib.check(cron).value)))
      && (lib.check(cron).None? && start.Err? ==> r == Err(start.error))
      && (lib.check(cron).None? && start.Ok? && lib.fireAfter(cron, Later(start.value, now)).None? ==>
           r == Err(RuntimeError(NoNextRunText)))
      && (r.Ok? <==> lib.check(cron).None? && start.Ok? && lib.fireAfter(cron, Later(start.value, now)).Some?)
      && (r.Ok? ==> lib.fireAfter(cron, Later(start.value, now)) == Some(r.value))
  {
  }

  /// A next run lies after both the clock and the start time, whether the
  /// start is in the past or in the future.
  lemma NextRunIsLater(cron: string, start: Result<int, GenericError>, now: int, lib: CronLib)
    requires FiresAfter(lib)
    ensures NextRunFromCron(cron, start, now, lib).Ok? ==>
      NextRunFromCron(cron, start, now, lib).value > now && NextRunFromCron(cron, start, now, lib).value > start.value
  {
    if NextRunFromCron(cron, start, now, lib).Ok? {
      assert lib.fireAfter(cron, Later(start.value, now)).Some?;
    }
  }

  // ---------------------------------------------------------------------
  // Heap entries and their order
  // ---------------------------------------------------------------------

  /// Rust's order on `String`: lexicographic, a prefix first.
  predicate StrBelow(a: string, b: string)
    decreases |a|
  {
    a == [] || (b != [] && (a[0] < b[0] || (a[0] == b[0] && StrBelow(a[1..], b[1..]))))
  }

  lemma {:induction false} StrBelowTotal(a: string, b: string)
    ensures StrBelow(a, b) || StrBelow(b, a)
    decreases |a|
  {
    if a != [] && b != [] && a[0] == b[0] {
      StrBelowTotal(a[1..], b[1..]);
    }
  }

  lemma {:induction false} StrBelowAntisym(a: string, b: string)
    requires StrBelow(a, b) && StrBelow(b, a)
    ensures a == b
    decreases |a|
  {
    if a != [] && b != [] {
      StrBelowAntisym(a[1..], b[1..]);
      assert a == [a[0]] + a[1..] && b == [b[0]] + b[1..];
    }
  }

  lemma {:induction false} StrBelowTrans(a: string, b: string, c: string)
    requires StrBelow(a, b) && StrBelow(b, c)
    ensures StrBelow(a, c)
    decreases |a|
  {
    if a != [] && b != [] && c != [] && a[0] == b[0] && b[0] == c[0] {
      StrBelowTrans(a[1..], b[1..], c[1..]);
    }
  }

  /// A heap entry: the negated next run time and the workflow id.
  datatype Entry = Entry(key: int, id: string)

  /// The order of `BinaryHeap<(i64, String)>`: by key, then by id.
  predicate Below(a: Entry, b: Entry) {
    a.key < b.key || (a.key == b.key && StrBelow(a.id, b.id))
  }

  lemma BelowTotal(a: Entry, b: Entry)
    ensures Below(a, b) || Below(b, a)
  {
    StrBelowTotal(a.id, b.id);
  }

  lemma BelowTrans(a: Entry, b: Entry, c: Entry)
    requires Below(a, b) && Below(b, c)
    ensures Below(a, c)
  {
    if a.key == b.key == c.key {
      StrBelowTrans(a.id, b.id, c.id);
    }
  }

  predicate IsTop(e: Entry, h: multiset<Entry>) {
    e in h && forall f :: f in h ==> Below(f, e)
  }

  /// Every non-empty heap has a top entry.
  lemma {:induction false} TopExists(h: multiset<Entry>)
    requires h != multiset{}
    ensures exists e :: IsTop(e, h)
    decreases |h|
  {
    var x :| x in h;
    var rest := h - multiset{x};
    forall f | f in h && f != x
      ensures f in rest
    {
      assert rest[f] == h[f];
    }
    BelowTotal(x, x);
    if rest == multiset{} {
      assert IsTop(x, h);
    } else {
      TopExists(rest);
      var m :| IsTop(m, rest);
      if Below(x, m) {
        assert IsTop(m, h);
      } else {
        BelowTotal(x, m);
        forall f | f in h
          ensures Below(f, x)
        {
          if f != x {
            BelowTrans(f, m, x);
          }
        }
        assert IsTop(x, h);
      }
    }
  }

  /// The top is unique, so `peek` and `pop` agree on it.
  lemma TopUnique(e1: Entry, e2: Entry, h: multiset<Entry>)
    requires IsTop(e1, h) && IsTop(e2, h)
    ensures e1 == e2
  {
    StrBelowAntisym(e1.id, e2.id);
  }

  ghost function Top(h: multiset<Entry>): (e: Entry)
    requires h != multiset{}
    ensures IsTop(e, h)
  {
    TopExists(h);
    var e :| IsTop(e, h);
    e
  }

  /// The top holds the earliest run time in the heap.
  lemma {:induction false} TopIsEarliest(e: Entry, h: multiset<Entry>)
    requires IsTop(e, h)
    ensures forall f :: f in h ==> -e.key <= -f.key
  {
  }

  /// `BinaryHeap::peek`.
  method PeekTop(h: multiset<Entry>) returns (top: Entry)
    requires h != multiset{}
    ensures IsTop(top, h) && top == Top(h)
  {
    TopExists(h);
    top :| IsTop(top, h);
    TopUnique(top, Top(h), h);
  }

  // ---------------------------------------------------------------------
  // Building the queue
  // ---------------------------------------------------------------------

  /// The workflow store in the order its map is walked.
  type WorkflowList = seq<(string, Workflow)>

  predicate DistinctKeys(ws: WorkflowList) {
    forall i, j :: 0 <= i < j < |ws| ==> ws[i].0 != ws[j].0
  }

  function MapUpTo(ws: WorkflowList, n: nat): map<string, Workflow>
    requires n <= |ws|
  {
    if n == 0 then map[] else MapUpTo(ws, n - 1)[ws[n - 1].0 := ws[n - 1].1]
  }

  /// The store as a map.
  function MapOf(ws: WorkflowList): map<string, Workflow> {
    MapUpTo(ws, |ws|)
  }

  lemma {:induction false} MapUpToLookup(ws: WorkflowList, n: nat, k: nat)
    requires DistinctKeys(ws) && k < n <= |ws|
    ensures ws[k].0 in MapUpTo(ws, n) && MapUpTo(ws, n)[ws[k].0] == ws[k].1
  {
    if k < n - 1 {
      MapUpToLookup(ws, n - 1, k);
    }
  }

  /// How the next run of a workflow with cron expression `c` is computed.
  type NextRun = (string, Workflow) -> Result<int, GenericError>

  /// `next_run_from_cron` on a workflow's cron expression and start time,
  /// with the clock at `now`.
  function NextRuns(now: int, lib: CronLib, parse: string -> Option<int>): NextRun {
    (c, w) => NextRunFromCron(c, StartTimeUtc(w, parse), now, lib)
  }

  /// Workflow `k` has a cron expression whose next run cannot be computed.
  predicate FailsAt(ws: WorkflowList, k: nat, next: NextRun)
    requires k < |ws|
  {
    ws[k].1.cron.Some? && next(ws[k].1.cron.value, ws[k].1).Err?
  }

  /// The queue `build_schedule_queue` builds from the first `n` workflows:
  /// one entry per workflow with a cron expression, or the first error.
  function Scheduled(ws: WorkflowList, n: nat, next: NextRun): Result<multiset<Entry>, GenericError>
    requires n <= |ws|
  {
    if n == 0 then Ok(multiset{})
    else
      var prev := Scheduled(ws, n - 1, next);
      var w := ws[n - 1].1;
      if prev.Err? || w.cron.None? then prev
      else
        var t := next(w.cron.value, w);
        if t.Err? then Err(t.error) else Ok(prev.value + multiset{Entry(-t.value, ws[n - 1].0)})
  }

  /// The number of the first `n` workflows that have a cron expression.
  function CronCount(ws: WorkflowList, n: nat): nat
    requires n <= |ws|
  {
    if n == 0 then 0 else CronCount(ws, n - 1) + (if ws[n - 1].1.cron.Some? then 1 else 0)
  }

  lemma {:induction false} ScheduledErrSticks(ws: WorkflowList, m: nat, n: nat, next: NextRun)
    requires m <= n <= |ws| && Scheduled(ws, m, next).Err?
    ensures Scheduled(ws, n, next) == Scheduled(ws, m, next)
    decreases n - m
  {
    if m < n {
      ScheduledErrSticks(ws, m, n - 1, next);
    }
  }

  /// The build fails exactly when some workflow's next run cannot be
  /// computed, and then with the error of the first such workflow.
  lemma {:induction false} ScheduledFails(ws: WorkflowList, n: nat, next: NextRun)
    requires n <= |ws|
    ensures Scheduled(ws, n, next).Err? <==> exists k :: 0 <= k < n && FailsAt(ws, k, next)
    ensures Scheduled(ws, n, next).Err? ==>
      exists k :: 0 <= k < n && FailsAt(ws, k, next) && (forall j :: 0 <= j < k ==> !FailsAt(ws, j, next)) &&
        Scheduled(ws, n, next).error == next(ws[k].1.cron.value, ws[k].1).error
  {
    if n > 0 {
      ScheduledFails(ws, n - 1, next);
      if Scheduled(ws, n - 1, next).Ok? && FailsAt(ws, n - 1, next) {
        var k := n - 1;
        assert forall j :: 0 <= j < k ==> !FailsAt(ws, j, next);
      }
    }
  }

  /// A built queue holds one entry per workflow with a cron expression, and
  /// none for the others.
  lemma {:induction false} ScheduledCount(ws: WorkflowList, n: nat, next: NextRun)
    requires n <= |ws| && Scheduled(ws, n, next).Ok?
    ensures |Scheduled(ws, n, next).value| == CronCount(ws, n)
  {
    if n > 0 {
      ScheduledCount(ws, n - 1, next);
    }
  }

  /// An entry is in the built queue exactly when it names a workflow with a
  /// cron expression and holds that workflow's negated next run.
  lemma {:induction false} ScheduledEntries(ws: WorkflowList, n: nat, next: NextRun, e: Entry)
    requires n <= |ws| && Scheduled(ws, n, next).Ok?
    ensures e in Scheduled(ws, n, next).value <==>
      exists k :: 0 <= k < n && ws[k].0 == e.id && ws[k].1.cron.Some? && next(ws[k].1.cron.value, ws[k].1) == Ok(-e.key)
  {
    if n > 0 {
      ScheduledEntries(ws, n - 1, next, e);
    }
  }

  /// A next run fails only with a cron or start time that does not parse, or
  /// a cron with no future fire.
  lemma NextRunErrorKinds(now: int, lib: CronLib, parse: string -> Option<int>, c: string, w: Workflow)
    ensures var r := NextRuns(now, lib, parse)(c, w);
      r.Err? ==> r.error.ParseError? || r.error.WorkflowError? || r.error.RuntimeError?
  {
  }

  /// So a build fails only with those errors, and never with the error
  /// `Scheduler::new` gives a store without schedules.
  lemma ScheduledErrorKinds(ws: WorkflowList, now: int, lib: CronLib, parse: string -> Option<int>)
    requires Scheduled(ws, |ws|, NextRuns(now, lib, parse)).Err?
    ensures var e := Scheduled(ws, |ws|, NextRuns(now, lib, parse)).error;
      e.ParseError? || e.WorkflowError? || e.RuntimeError?
  {
    var next := NextRuns(now, lib, parse);
    ScheduledFails(ws, |ws|, next);
    var k :| 0 <= k < |ws| && FailsAt(ws, k, next) && Scheduled(ws, |ws|, next).error == next(ws[k].1.cron.value, ws[k].1).error;
    NextRunErrorKinds(now, lib, parse, ws[k].1.cron.value, ws[k].1);
  }

  /// A single invalid cron expression makes the whole build fail.
  lemma InvalidCronFails(ws: WorkflowList, k: nat, now: int, lib: CronLib, parse: string -> Option<int>)
    requires k < |ws| && ws[k].1.cron.Some? && lib.check(ws[k].1.cron.value).Some?
    ensures Scheduled(ws, |ws|, NextRuns(now, lib, parse)).Err?
  {
    var w := ws[k].1;
    var next := NextRuns(now, lib, parse);
    assert next(w.cron.value, w) == NextRunFromCron(w.cron.value, StartTimeUtc(w, parse), now, lib);
    assert FailsAt(ws, k, next);
    ScheduledFails(ws, |ws|, NextRuns(now, lib, parse));
  }

  /// Every entry of a built queue names a workflow of the store that has a
  /// cron expression.
  lemma ScheduledKnown(ws: WorkflowList, next: NextRun)
    requires DistinctKeys(ws) && Scheduled(ws, |ws|, next).Ok?
    ensures AllScheduled(Scheduled(ws, |ws|, next).value, MapOf(ws))
  {
    forall e | e in Scheduled(ws, |ws|, next).value
      ensures e.id in MapOf(ws) && MapOf(ws)[e.id].cron.Some?
    {
      ScheduledEntries(ws, |ws|, next, e);
      var k :| 0 <= k < |ws| && ws[k].0 == e.id && ws[k].1.cron.Some? && next(ws[k].1.cron.value, ws[k].1) == Ok(-e.key);
      MapUpToLookup(ws, |ws|, k);
    }
  }

  /// `build_schedule_queue`, with `next` computing each workflow's next run
  /// (in the scheduler, `NextRuns` at the clock of the build).
  method BuildScheduleQueue(ws: WorkflowList, next: NextRun) returns (r: Result<multiset<Entry>, GenericError>)
    ensures r == Scheduled(ws, |ws|, next)
  {
    var heap: multiset<Entry> := multiset{};
    for i := 0 to |ws|
      invariant Scheduled(ws, i, next) == Ok(heap)
    {
      var (id, w) := ws[i];
      match w.cron {
        case None =>
        case Some(c) =>
          var t := next(c, w);
          if t.Err? {
            ScheduledErrSticks(ws, i + 1, |ws|, next);
            return Err(t.error);
          }
          heap := heap + multiset{Entry(-t.value, id)};
      }
    }
    return Ok(heap);
  }

  // ---------------------------------------------------------------------
  // The scheduler
  // ---------------------------------------------------------------------

  /// Every entry of `h` names a workflow of `ws` that has a cron expression.
  ghost predicate AllScheduled(h: multiset<Entry>, ws: map<string, Workflow>) {
    forall e :: e in h ==> e.id in ws && ws[e.id].cron.Some?
  }

  /// Putting back the popped workflow's next run keeps the heap's size and
  /// its entries scheduled.
  lemma ReinsertKeeps(h: multiset<Entry>, top: Entry, e: Entry, ws: map<string, Workflow>)
    requires AllScheduled(h, ws) && top in h && e.id == top.id
    ensures AllScheduled(h - multiset{top} + multiset{e}, ws)
    ensures |h - multiset{top} + multiset{e}| == |h|
  {
    var h' := h - multiset{top} + multiset{e};
    forall f | f in h'
      ensures f.id in ws && ws[f.id].cron.Some?
    {
      if f != e {
        assert f in h;
      }
    }
    assert h == h - multiset{top} + multiset{top};
  }

  /// Merging a store in keeps the entries built from it scheduled.
  lemma MergeKeeps(h: multiset<Entry>, current: map<string, Workflow>, incoming: map<string, Workflow>)
    requires AllScheduled(h, incoming)
    ensures AllScheduled(h, current + incoming)
  {
    forall e | e in h
      ensures e.id in current + incoming && (current + incoming)[e.id].cron.Some?
    {
      assert (current + incoming)[e.id] == incoming[e.id];
    }
  }

  /// The workflow id and run time last peeked from the heap, and whether
  /// the wait for it has been logged.
  datatype Peek = Peek(id: string, ts: int, logged: bool)

  /// The outcome of `update_schedule_priority_queue`: the rebuilt heap can be
  /// empty, and then its `peek().unwrap()` panics.
  datatype UpdateOutcome = Updated | Failed(error: GenericError) | EmptyQueuePanic

  function WrongPopText(expected: string, got: string): string {
    "Popped wrong workflow from the priority queue. Expected " + expected + " but got " + got
  }

  /// `next_run_from_cron(c, Ok(now))`: the next run of a workflow that is put
  /// back after running, from the clock at `now`.
  function Reruns(now: int, lib: CronLib): string -> Result<int, GenericError> {
    c => NextRunFromCron(c, Ok(now), now, lib)
  }

  /// A workflow put back runs again later than the clock.
  lemma RerunIsLater(now: int, lib: CronLib, c: string)
    requires FiresAfter(lib)
    ensures Reruns(now, lib)(c).Ok? ==> Reruns(now, lib)(c).value > now
  {
    NextRunIsLater(c, Ok(now), now, lib);
  }

  const NoSchedulesText: string := "No workflows have valid schedules. Scheduler cannot run"

  class Scheduler {
    var workflows: map<string, Workflow>
    var heap: multiset<Entry>
    var nextPeek: Peek

    /// The peek names the top of a non-empty heap, and every entry names a
    /// known workflow with a cron expression.
    ghost predicate Valid()
      reads this
    {
      heap != multiset{} && IsTop(Entry(-nextPeek.ts, nextPeek.id), heap) && AllScheduled(heap, workflows)
    }

    constructor (workflows: map<string, Workflow>, heap: multiset<Entry>, nextPeek: Peek)
      ensures this.workflows == workflows && this.heap == heap && this.nextPeek == nextPeek
    {
      this.workflows := workflows;
      this.heap := heap;
      this.nextPeek := nextPeek;
    }

    /// `next_workflow_ready`.
    predicate NextWorkflowReady(now: int): (r: bool)
      reads this
      ensures r <==> nextPeek.ts <= now
    {
      nextPeek.ts - now <= 0
    }

    /// One round of the wait in `start_listening`: when the peeked run is
    /// not due yet, the wait is logged once.
    method WaitStep(now: int) returns (ready: bool)
      modifies this
      ensures ready <==> old(nextPeek).ts <= now
      ensures ready ==> nextPeek == old(nextPeek)
      ensures !ready ==> nextPeek == old(nextPeek).(logged := true)
      ensures heap == old(heap) && workflows == old(workflows)
    {
      ready := NextWorkflowReady(now);
      if !ready && !nextPeek.logged {
        nextPeek := nextPeek.(logged := true);
      }
    }

    /// `BinaryHeap::pop`: the top entry leaves the heap.
    method Pop() returns (top: Entry)
      requires heap != multiset{}
      modifies this
      ensures top == Top(old(heap)) && heap == old(heap) - multiset{top}
      ensures old(Valid()) ==> top == Entry(-nextPeek.ts, nextPeek.id)
      ensures workflows == old(workflows) && nextPeek == old(nextPeek)
    {
      top := PeekTop(heap);
      if Valid() {
        TopUnique(top, Entry(-nextPeek.ts, nextPeek.id), heap);
      }
      heap := heap - multiset{top};
    }

    /// `push` of a workflow's next run, and the peek of the new top.
    method PushAndPeek(e: Entry)
      modifies this
      ensures heap == old(heap) + multiset{e}
      ensures IsTop(Entry(-nextPeek.ts, nextPeek.id), heap) && !nextPeek.logged
      ensures workflows == old(workflows)
    {
      heap := heap + multiset{e};
      var q := PeekTop(heap);
      nextPeek := Peek(q.id, -q.key, false);
    }

    /// The outcome of re-inserting workflow `id` into `h0` given its next
    /// run `next`: the re-insert succeeds exactly when `next` does, and then
    /// the heap gains that run and the peek is its new, not yet logged, top.
    ghost predicate Requeued(h0: multiset<Entry>, next: Result<int, GenericError>, id: string,
                             r: Result<(), GenericError>, h: multiset<Entry>, p: Peek)
    {
      && (r.Ok? <==> next.Ok?)
      && (r.Err? ==> r.error == next.error)
      && (r.Ok? ==> h == h0 + multiset{Entry(-next.value, id)} && IsTop(Entry(-p.ts, p.id), h) && !p.logged)
    }

    /// The pop and re-insert of `start_listening` once the peeked run is due:
    /// the popped id must be the peeked one; the workflow is run (`ran` is
    /// that run's outcome) and its next run goes back on the heap, whose new
    /// top becomes the peek. `rerun(c)` is `next_run_from_cron(c, Ok(now))`
    /// at the clock of the re-insert (`Reruns`).
    method Dispatch(ran: Result<(), GenericError>, rerun: string -> Result<int, GenericError>)
      returns (r: Result<(), GenericError>, ghost popped: Entry)
      requires heap != multiset{}
      requires forall e :: e in heap ==> e.id in workflows
      modifies this
      ensures popped == Top(old(heap)) && workflows == old(workflows)
      ensures old(nextPeek).id != popped.id ==> r == Err(RuntimeError(WrongPopText(old(nextPeek).id, popped.id)))
      ensures old(nextPeek).id == popped.id && ran.Err? ==> r == Err(ran.error)
      ensures r.Err? || workflows[popped.id].cron.None? ==>
        heap == old(heap) - multiset{popped} && nextPeek == old(nextPeek)
      ensures old(nextPeek).id == popped.id && ran.Ok? && workflows[popped.id].cron.Some? ==>
        Requeued(old(heap) - multiset{popped}, rerun(workflows[popped.id].cron.value), popped.id, r, heap, nextPeek)
      ensures old(Valid()) ==> (r.Ok? <==> ran.Ok? && rerun(workflows[popped.id].cron.value).Ok?)
      ensures old(Valid()) && r.Ok? ==> Valid() && |heap| == |old(heap)|
    {
      ghost var valid := Valid();
      ghost var before := heap;
      var top := Pop();
      popped := top;
      var id := top.id;
      if nextPeek.id != id {
        return Err(RuntimeError(WrongPopText(nextPeek.id, id))), popped;
      }
      r := Reschedule(ran, rerun, top, before, valid);
    }

    /// After the popped entry checked out: a failed run is reported, a
    /// workflow without a cron expression is not re-inserted, and otherwise
    /// its next run is (`Requeue`).
    method Reschedule(ran: Result<(), GenericError>, rerun: string -> Result<int, GenericError>,
                      top: Entry, ghost before: multiset<Entry>, ghost valid: bool)
      returns (r: Result<(), GenericError>)
      requires top in before && heap == before - multiset{top} && top.id in workflows
      requires valid ==> AllScheduled(before, workflows)
      modifies this
      ensures workflows == old(workflows)
      ensures ran.Err? ==> r == Err(ran.error)
      ensures r.Err? || workflows[top.id].cron.None? ==> heap == old(heap) && nextPeek == old(nextPeek)
      ensures ran.Ok? && workflows[top.id].cron.Some? ==>
        Requeued(old(heap), rerun(workflows[top.id].cron.value), top.id, r, heap, nextPeek)
      ensures valid ==> (r.Ok? <==> ran.Ok? && rerun(workflows[top.id].cron.value).Ok?)
      ensures valid && r.Ok? ==> Valid() && |heap| == |before|
    {
      if ran.Err? {
        return Err(ran.error);
      }
      assert valid ==> workflows[top.id].cron.Some? by {
        if valid {
          assert top in before;
        }
      }
      match workflows[top.id].cron {
        case None =>
          r := Ok(());
        case Some(c) =>
          r := Requeue(top.id, rerun(c), before, top, valid);
      }
    }

    /// The re-insert after a due run: `next` is the workflow's next run;
    /// a failed computation leaves the heap without the popped entry.
    method Requeue(id: string, next: Result<int, GenericError>, ghost before: multiset<Entry>, ghost top: Entry, ghost valid: bool)
      returns (r: Result<(), GenericError>)
      requires top in before && top.id == id && heap == before - multiset{top}
      requires valid ==> AllScheduled(before, workflows)
      modifies this
      ensures workflows == old(workflows)
      ensures Requeued(old(heap), next, id, r, heap, nextPeek)
      ensures r.Err? ==> heap == old(heap) && nextPeek == old(nextPeek)
      ensures r.Ok? && valid ==> Valid() && |heap| == |before|
    {
      if next.Err? {
        return Err(next.error);
      }
      if valid {
        ReinsertKeeps(before, top, Entry(-next.value, id), workflows);
      }
      PushAndPeek(Entry(-next.value, id));
      r := Ok(());
    }

    /// `update_schedule_priority_queue`: rebuilds the heap from the incoming
    /// store, merges the store in (incoming entries override), and peeks the
    /// new top. A failed build changes nothing. `next` computes next runs at
    /// the clock of the rebuild (`NextRuns`).
    method UpdateSchedulePriorityQueue(incoming: WorkflowList, next: NextRun) returns (r: UpdateOutcome)
      requires DistinctKeys(incoming)
      modifies this
      ensures Scheduled(incoming, |incoming|, next).Err? ==>
        r == Failed(Scheduled(incoming, |incoming|, next).error) &&
        heap == old(heap) && workflows == old(workflows) && nextPeek == old(nextPeek)
      ensures Scheduled(incoming, |incoming|, next).Ok? ==>
        heap == Scheduled(incoming, |incoming|, next).value && workflows == old(workflows) + MapOf(incoming)
      ensures Scheduled(incoming, |incoming|, next).Ok? && CronCount(incoming, |incoming|) == 0 ==>
        r == EmptyQueuePanic && nextPeek == old(nextPeek)
      ensures Scheduled(incoming, |incoming|, next).Ok? && CronCount(incoming, |incoming|) > 0 ==>
        r == Updated && Valid() && !nextPeek.logged
    {
      var built := BuildScheduleQueue(incoming, next);
      if built.Err? {
        return Failed(built.error);
      }
      ScheduledCount(incoming, |incoming|, next);
      ScheduledKnown(incoming, next);
      r := Install(built.value, MapOf(incoming));
    }

    /// The tail of `update_schedule_priority_queue`: the rebuilt heap and the
    /// merged store are stored, and the new top is peeked.
    method Install(h: multiset<Entry>, incoming: map<string, Workflow>) returns (r: UpdateOutcome)
      requires AllScheduled(h, incoming)
      modifies this
      ensures heap == h && workflows == old(workflows) + incoming
      ensures h == multiset{} ==> r == EmptyQueuePanic && nextPeek == old(nextPeek)
      ensures h != multiset{} ==> r == Updated && Valid() && !nextPeek.logged
    {
      MergeKeeps(h, workflows, incoming);
      heap := h;
      workflows := workflows + incoming;
      if heap == multiset{} {
        return EmptyQueuePanic;
      }
      var q := PeekTop(heap);
      nextPeek := Peek(q.id, -q.key, false);
      return Updated;
    }
  }

  /// `Scheduler::new` once the store has been fetched: the queue is built
  /// from it, and a store with no schedule at all is refused. `next` computes
  /// next runs at the clock of the build (`NextRuns`).
  method New(ws: WorkflowList, next: NextRun) returns (r: Result<Scheduler, GenericError>)
    requires DistinctKeys(ws)
    ensures Scheduled(ws, |ws|, next).Err? ==> r == Err(Scheduled(ws, |ws|, next).error)
    ensures Scheduled(ws, |ws|, next).Ok? && CronCount(ws, |ws|) == 0 ==> r == Err(NoDataException(NoSchedulesText))
    ensures Scheduled(ws, |ws|, next).Ok? && CronCount(ws, |ws|) > 0 ==>
      r.Ok? && fresh(r.value) && r.value.Valid() && !r.value.nextPeek.logged &&
      r.value.workflows == MapOf(ws) && r.value.heap == Scheduled(ws, |ws|, next).value &&
      forall e :: e in r.value.heap ==> r.value.nextPeek.ts <= -e.key
  {
    var built := BuildScheduleQueue(ws, next);
    if built.Err? {
      return Err(built.error);
    }
    ScheduledCount(ws, |ws|, next);
    if built.value == multiset{} {
      return Err(NoDataException(NoSchedulesText));
    }
    ScheduledKnown(ws, next);
    var q := PeekTop(built.value);
    TopIsEarliest(q, built.value);
    var s := new Scheduler(MapOf(ws), built.value, Peek(q.id, -q.key, false));
    return Ok(s);
  }
}
