/// The principal's shared queues: a FIFO of work items, and the priority
/// queue of agents ordered by how many tasks each is running.
module DataStructures {
  import opened Wrappers
  import opened Errors
  import opened CoreModels

  /// A first-in first-out queue (`AsyncQueue`); each call is one atomic step.
  class AsyncQueue<T> {
    var items: seq<T>

    constructor ()
      ensures items == []
    {
      items := [];
    }

    /// `get`: the front item, removed, or nothing when the queue is empty.
    method Get() returns (r: Option<T>)
      modifies this
      ensures old(items) == [] ==> r == None && items == []
      ensures old(items) != [] ==> r == Some(old(items)[0]) && items == old(items)[1..]
    {
      if items == [] {
        r := None;
      } else {
        r := Some(items[0]);
        items := items[1..];
      }
    }

    /// `put`: the item goes to the back.
    method Put(item: T)
      modifies this
      ensures items == old(items) + [item]
    {
      items := items + [item];
    }

    method IsEmpty() returns (r: bool)
      ensures r <==> Size() == 0
    {
      r := items == [];
    }

    function Size(): nat
      reads this
    {
      |items|
    }
  }

  /// Two puts into an empty queue come back out in the order they went in.
  method FifoOrder<T>(x: T, y: T) returns (first: Option<T>, second: Option<T>, third: Option<T>)
    ensures first == Some(x) && second == Some(y) && third == None
  {
    var q := new AsyncQueue<T>();
    q.Put(x);
    q.Put(y);
    first := q.Get();
    second := q.Get();
    third := q.Get();
  }

  /// A heap entry: the agent's utilisation when it was pushed, and the unique
  /// id of that push.
  datatype Entry = Entry(utilisation: nat, uid: nat)

  /// The order of `BinaryHeap<(usize, usize)>`: by utilisation, then by id.
  predicate Below(a: Entry, b: Entry) {
    a.utilisation < b.utilisation || (a.utilisation == b.utilisation && a.uid <= b.uid)
  }

  predicate IsTop(e: Entry, h: multiset<Entry>) {
    e in h && forall f :: f in h ==> Below(f, e)
  }

  /// Every non-empty heap has a top entry.
  lemma {:induction false} TopExists(h: multiset<Entry>)
    requires h != multiset{}
    ensures exists e :: IsTop(e, h)
    decreases |h|
  {
    var x :| x in h;
    var rest := h - multiset{x};
    forall f | f in h && f != x
      ensures f in rest
    {
      assert rest[f] == h[f];
    }
    if rest == multiset{} {
      assert IsTop(x, h);
    } else {
      TopExists(rest);
      var m :| IsTop(m, rest);
      if Below(x, m) {
        assert IsTop(m, h);
      } else {
        assert IsTop(x, h);
      }
    }
  }

  /// The three parts of the priority queue, and its next unique id.
  datatype QueueState = QueueState(heap: multiset<Entry>, nodeMap: map<nat, AgentMeta>, uMap: map<string, nat>, counter: nat)

  /// Every id in use is below the counter.
  ghost predicate IdsBelowCounter(s: QueueState) {
    (forall u :: u in s.nodeMap ==> u < s.counter) &&
    (forall e :: e in s.heap ==> e.uid < s.counter)
  }

  /// Every live node has a heap entry, and that entry carries its utilisation.
  ghost predicate HeapTracksNodes(s: QueueState) {
    (forall u :: u in s.nodeMap ==> Entry(s.nodeMap[u].runningTasks, u) in s.heap) &&
    (forall e :: e in s.heap && e.uid in s.nodeMap ==> e.utilisation == s.nodeMap[e.uid].runningTasks)
  }

  /// Each agent has at most one live node, and `uMap` points at it.
  ghost predicate OneNodePerAgent(s: QueueState) {
    (forall a :: a in s.uMap ==> s.uMap[a] in s.nodeMap && s.nodeMap[s.uMap[a]].agentId == a) &&
    (forall u :: u in s.nodeMap ==> s.nodeMap[u].agentId in s.uMap && s.uMap[s.nodeMap[u].agentId] == u)
  }

  ghost predicate Inv(s: QueueState) {
    IdsBelowCounter(s) && HeapTracksNodes(s) && OneNodePerAgent(s)
  }

  /// The live agents, by agent id.
  ghost function LiveOf(s: QueueState): map<string, AgentMeta> {
    LiveIn(s.nodeMap, s.uMap)
  }

  ghost function LiveIn(nodeMap: map<nat, AgentMeta>, uMap: map<string, nat>): map<string, AgentMeta> {
    map a | a in uMap && uMap[a] in nodeMap :: nodeMap[uMap[a]]
  }

  ghost function Pushed(s: QueueState, meta: AgentMeta): QueueState {
    QueueState(s.heap + multiset{Entry(meta.runningTasks, s.counter)}, s.nodeMap[s.counter := meta],
               s.uMap[meta.agentId := s.counter], s.counter + 1)
  }

  /// Pushing an absent agent keeps the invariant and makes it live.
  lemma PushKeeps(s: QueueState, meta: AgentMeta)
    requires Inv(s) && meta.agentId !in s.uMap
    ensures Inv(Pushed(s, meta))
    ensures LiveOf(Pushed(s, meta)) == LiveOf(s)[meta.agentId := meta]
  {
    PushKeepsIds(s, meta);
    PushKeepsHeap(s, meta);
    PushKeepsAgents(s, meta);
    assert LiveOf(Pushed(s, meta)) == LiveOf(s)[meta.agentId := meta];
  }

  lemma PushKeepsIds(s: QueueState, meta: AgentMeta)
    requires IdsBelowCounter(s)
    ensures IdsBelowCounter(Pushed(s, meta))
  {
  }

  lemma PushKeepsHeap(s: QueueState, meta: AgentMeta)
    requires IdsBelowCounter(s) && HeapTracksNodes(s)
    ensures HeapTracksNodes(Pushed(s, meta))
  {
  }

  lemma PushKeepsAgents(s: QueueState, meta: AgentMeta)
    requires IdsBelowCounter(s) && OneNodePerAgent(s) && meta.agentId !in s.uMap
    ensures OneNodePerAgent(Pushed(s, meta))
  {
  }

  /// Discarding a stale heap entry changes nothing that is live.
  lemma DropStaleKeeps(s: QueueState, top: Entry)
    requires Inv(s) && top in s.heap && top.uid !in s.nodeMap
    ensures Inv(s.(heap := s.heap - multiset{top}))
    ensures LiveOf(s.(heap := s.heap - multiset{top})) == LiveOf(s)
  {
    var t := s.(heap := s.heap - multiset{top});
    forall u | u in t.nodeMap
      ensures Entry(t.nodeMap[u].runningTasks, u) in t.heap
    {
      var e := Entry(s.nodeMap[u].runningTasks, u);
      assert t.heap[e] == s.heap[e];
    }
    assert HeapTracksNodes(t);
  }

  ghost function Taken(s: QueueState, top: Entry): QueueState
    requires top.uid in s.nodeMap
  {
    QueueState(s.heap - multiset{top}, s.nodeMap - {top.uid}, s.uMap - {s.nodeMap[top.uid].agentId}, s.counter)
  }

  /// Taking the live top entry keeps the invariant and removes exactly its
  /// agent, which is at least every live agent in heap order.
  lemma TakeTopKeeps(s: QueueState, top: Entry)
    requires Inv(s) && IsTop(top, s.heap) && top.uid in s.nodeMap
    ensures var a := s.nodeMap[top.uid].agentId;
      && a in LiveOf(s) && LiveOf(s)[a] == s.nodeMap[top.uid] && s.uMap[a] == top.uid
      && Inv(Taken(s, top))
      && LiveOf(Taken(s, top)) == LiveOf(s) - {a}
      && (forall b :: b in LiveOf(s) ==> LiveOf(s)[b].runningTasks <= LiveOf(s)[a].runningTasks)
      && (forall b :: b in LiveOf(s) && LiveOf(s)[b].runningTasks == LiveOf(s)[a].runningTasks ==> s.uMap[b] <= s.uMap[a])
  {
    var a := s.nodeMap[top.uid].agentId;
    TakeTopKeepsHeap(s, top);
    TakeTopKeepsAgents(s, top);
    TakeTopLive(s, top);
    TopIsHighest(s, top);
  }

  lemma TakeTopKeepsHeap(s: QueueState, top: Entry)
    requires HeapTracksNodes(s) && top.uid in s.nodeMap
    ensures HeapTracksNodes(Taken(s, top))
  {
    var t := Taken(s, top);
    forall u | u in t.nodeMap
      ensures Entry(t.nodeMap[u].runningTasks, u) in t.heap
    {
      var e := Entry(s.nodeMap[u].runningTasks, u);
      assert t.heap[e] == s.heap[e];
    }
  }

  lemma TakeTopKeepsAgents(s: QueueState, top: Entry)
    requires OneNodePerAgent(s) && top.uid in s.nodeMap
    ensures OneNodePerAgent(Taken(s, top))
  {
  }

  lemma TakeTopLive(s: QueueState, top: Entry)
    requires OneNodePerAgent(s) && top.uid in s.nodeMap
    ensures var a := s.nodeMap[top.uid].agentId;
      && a in LiveOf(s) && LiveOf(s)[a] == s.nodeMap[top.uid] && s.uMap[a] == top.uid
      && LiveOf(Taken(s, top)) == LiveOf(s) - {a}
  {
    var a := s.nodeMap[top.uid].agentId;
    assert LiveOf(Taken(s, top)) == LiveOf(s) - {a};
  }

  /// The top entry is at or above every live agent's entry.
  lemma TopIsHighest(s: QueueState, top: Entry)
    requires HeapTracksNodes(s) && OneNodePerAgent(s) && IsTop(top, s.heap) && top.uid in s.nodeMap
    ensures var a := s.nodeMap[top.uid].agentId;
      && a in LiveOf(s)
      && (forall b :: b in LiveOf(s) ==> LiveOf(s)[b].runningTasks <= LiveOf(s)[a].runningTasks)
      && (forall b :: b in LiveOf(s) && LiveOf(s)[b].runningTasks == LiveOf(s)[a].runningTasks ==> s.uMap[b] <= s.uMap[a])
  {
    forall b | b in LiveOf(s)
      ensures Below(Entry(LiveOf(s)[b].runningTasks, s.uMap[b]), top)
    {
      assert Entry(s.nodeMap[s.uMap[b]].runningTasks, s.uMap[b]) in s.heap;
    }
  }

  /// With no heap entries there is no live node.
  lemma NoEntriesNoNodes(s: QueueState)
    requires Inv(s) && s.heap == multiset{}
    ensures s.nodeMap == map[] && LiveOf(s) == map[]
  {
    forall u | u in s.nodeMap
      ensures Entry(s.nodeMap[u].runningTasks, u) in s.heap
    {
    }
  }

  ghost function Removed(s: QueueState, agentId: string): QueueState
    requires agentId in s.uMap
  {
    s.(nodeMap := s.nodeMap - {s.uMap[agentId]}, uMap := s.uMap - {agentId})
  }

  /// Removing a live agent keeps the invariant; its heap entry goes stale.
  lemma RemoveKeeps(s: QueueState, agentId: string)
    requires Inv(s) && agentId in s.uMap
    ensures Inv(Removed(s, agentId))
    ensures LiveOf(Removed(s, agentId)) == LiveOf(s) - {agentId}
    ensures s.uMap[agentId] in s.nodeMap && s.nodeMap[s.uMap[agentId]].agentId == agentId
  {
    var t := Removed(s, agentId);
    assert HeapTracksNodes(t);
    assert OneNodePerAgent(t);
  }

  /// Removing a live agent and pushing it back, changed, replaces its entry.
  lemma RemoveThenPush(s: QueueState, agentId: string, meta: AgentMeta)
    requires IdsBelowCounter(s) && OneNodePerAgent(s) && agentId in s.uMap && meta.agentId == agentId
    ensures LiveOf(Pushed(Removed(s, agentId), meta)) == LiveOf(s)[agentId := meta]
  {
    var t := Pushed(Removed(s, agentId), meta);
    var l := LiveOf(s)[agentId := meta];
    assert LiveOf(t).Keys == l.Keys;
    forall b | b in l
      ensures LiveOf(t)[b] == l[b]
    {
    }
  }

  /// A new heartbeat for a live agent keeps the invariant.
  lemma UpdateTimestampKeeps(s: QueueState, agentId: string, ts: int)
    requires Inv(s) && agentId in s.uMap
    ensures s.uMap[agentId] in s.nodeMap
    ensures Inv(s.(nodeMap := s.nodeMap[s.uMap[agentId] := s.nodeMap[s.uMap[agentId]].UpdateTimestamp(ts)]))
    ensures LiveOf(s.(nodeMap := s.nodeMap[s.uMap[agentId] := s.nodeMap[s.uMap[agentId]].UpdateTimestamp(ts)]))
            == LiveOf(s)[agentId := LiveOf(s)[agentId].UpdateTimestamp(ts)]
  {
    var u := s.uMap[agentId];
    var t := s.(nodeMap := s.nodeMap[u := s.nodeMap[u].UpdateTimestamp(ts)]);
    assert HeapTracksNodes(t);
    assert OneNodePerAgent(t);
  }

  /// The agent priority queue. Removing an agent only drops it from the node
  /// map, which makes its heap entry stale; `Pop` discards stale entries as it
  /// meets them.
  class AgentPriorityQueue {
    var heap: multiset<Entry>
    var nodeMap: map<nat, AgentMeta>
    var uMap: map<string, nat>
    /// The next unique id (`UNIQUENESS_COUNTER`).
    var counter: nat

    ghost function State(): QueueState
      reads this
    {
      QueueState(heap, nodeMap, uMap, counter)
    }

    ghost predicate Valid()
      reads this
    {
      Inv(State())
    }

    ghost function Live(): map<string, AgentMeta>
      reads this
    {
      LiveOf(State())
    }

    constructor ()
      ensures Valid() && Live() == map[]
      ensures heap == multiset{} && nodeMap == map[] && uMap == map[] && counter == 1
    {
      heap := multiset{};
      nodeMap := map[];
      uMap := map[];
      counter := 1;
    }

    /// `is_empty` looks at the raw heap, stale entries included.
    method IsEmpty() returns (r: bool)
      ensures r <==> heap == multiset{}
      ensures Valid() && r ==> Live() == map[]
    {
      r := heap == multiset{};
      if r && Valid() {
        NoEntriesNoNodes(State());
      }
    }

    /// `push`: a fresh id keys the node map, goes on the heap with the
    /// agent's utilisation, and becomes the agent's entry in `uMap`. Callers
    /// only push agents that are not in the queue.
    method Push(meta: AgentMeta)
      requires Valid() && meta.agentId !in uMap
      modifies this
      ensures Valid()
      ensures Live() == old(Live())[meta.agentId := meta]
      ensures State() == Pushed(old(State()), meta)
    {
      PushKeeps(State(), meta);
      var nextId := counter;
      counter := counter + 1;
      heap := heap + multiset{Entry(meta.runningTasks, nextId)};
      nodeMap := nodeMap[nextId := meta];
      uMap := uMap[meta.agentId := nextId];
    }

    /// `pop`: take heap entries from the top, skipping stale ones, until a
    /// live one is found; that agent leaves the queue. The agent returned
    /// has the highest utilisation among the live ones, and among equals the
    /// most recent push.
    method Pop() returns (r: Result<AgentMeta, GenericError>)
      requires Valid()
      modifies this
      ensures Valid()
      ensures r.Ok? <==> old(Live()) != map[]
      ensures r.Err? ==> r.error == MissingAgents && nodeMap == old(nodeMap) && uMap == old(uMap)
      ensures r.Ok? ==> r.value.agentId in old(Live()) && old(Live())[r.value.agentId] == r.value
      ensures r.Ok? ==> Live() == old(Live()) - {r.value.agentId}
      ensures r.Ok? ==> nodeMap == old(nodeMap) - {old(uMap)[r.value.agentId]} && uMap == old(uMap) - {r.value.agentId}
      ensures r.Ok? ==> forall b :: b in old(Live()) ==> old(Live())[b].runningTasks <= r.value.runningTasks
      ensures r.Ok? ==> forall b :: b in old(Live()) && old(Live())[b].runningTasks == r.value.runningTasks ==>
                          old(uMap)[b] <= old(uMap)[r.value.agentId]
      ensures counter == old(counter)
    {
      while heap != multiset{}
        invariant Valid()
        invariant nodeMap == old(nodeMap) && uMap == old(uMap) && counter == old(counter)
        decreases |heap|
      {
        TopExists(heap);
        var top :| IsTop(top, heap);
        if top.uid in nodeMap {
          var meta := TakeTop(top);
          return Ok(meta);
        }
        DropStaleKeeps(State(), top);
        heap := heap - multiset{top};
      }
      NoEntriesNoNodes(State());
      return Err(MissingAgents);
    }

    /// One step of `pop` on a live top entry: remove it from the heap and
    /// both maps.
    method TakeTop(top: Entry) returns (meta: AgentMeta)
      requires Valid() && IsTop(top, heap) && top.uid in nodeMap
      modifies this
      ensures Valid()
      ensures meta.agentId in old(Live()) && old(Live())[meta.agentId] == meta
      ensures Live() == old(Live()) - {meta.agentId}
      ensures nodeMap == old(nodeMap) - {old(uMap)[meta.agentId]} && uMap == old(uMap) - {meta.agentId}
      ensures forall b :: b in old(Live()) ==> old(Live())[b].runningTasks <= meta.runningTasks
      ensures forall b :: b in old(Live()) && old(Live())[b].runningTasks == meta.runningTasks ==>
                old(uMap)[b] <= old(uMap)[meta.agentId]
      ensures heap == old(heap) - multiset{top} && counter == old(counter)
    {
      TakeTopKeeps(State(), top);
      meta := nodeMap[top.uid];
      heap := heap - multiset{top};
      nodeMap := nodeMap - {top.uid};
      uMap := uMap - {meta.agentId};
      assert State() == Taken(old(State()), top);
    }

    /// `update_timestamp`: the agent's heartbeat changes in place; its heap
    /// position does not. An unknown agent is `MissingAgents` and nothing
    /// changes.
    method UpdateTimestamp(agentId: string, ts: int) returns (r: Result<(), GenericError>)
      requires Valid()
      modifies this
      ensures Valid()
      ensures r.Ok? <==> agentId in old(Live())
      ensures r.Err? ==> r.error == MissingAgents && State() == old(State())
      ensures r.Ok? ==> Live() == old(Live())[agentId := old(Live())[agentId].UpdateTimestamp(ts)]
      ensures r.Ok? ==> nodeMap == old(nodeMap)[old(uMap)[agentId] := old(nodeMap)[old(uMap)[agentId]].UpdateTimestamp(ts)]
      ensures heap == old(heap) && uMap == old(uMap) && counter == old(counter)
    {
      if agentId in uMap {
        UpdateTimestampKeeps(State(), agentId, ts);
        var uid := uMap[agentId];
        if uid in nodeMap {
          nodeMap := nodeMap[uid := nodeMap[uid].UpdateTimestamp(ts)];
          r := Ok(());
        } else {
          assert false;
          r := Err(MissingAgents);
        }
      } else {
        r := Err(MissingAgents);
      }
    }

    /// `remove`: drop the agent from both maps, leaving its heap entry stale.
    method Remove(agentId: string) returns (r: Result<AgentMeta, GenericError>)
      requires Valid()
      modifies this
      ensures Valid()
      ensures r.Ok? <==> agentId in old(Live())
      ensures r.Err? ==> r.error == MissingAgents && State() == old(State())
      ensures r.Ok? ==> r.value == old(Live())[agentId] && Live() == old(Live()) - {agentId}
      ensures r.Ok? ==> State() == Removed(old(State()), agentId)
      ensures r.Ok? ==> uMap == old(uMap) - {agentId} && r.value.agentId == agentId
    {
      if agentId in uMap {
        RemoveKeeps(State(), agentId);
        var uid := uMap[agentId];
        uMap := uMap - {agentId};
        if uid in nodeMap {
          var meta := nodeMap[uid];
          nodeMap := nodeMap - {uid};
          r := Ok(meta);
        } else {
          assert false;
          r := Err(MissingAgents);
        }
      } else {
        r := Err(MissingAgents);
      }
    }

    /// `update_running_tasks`: remove the agent, count one task more (or one
    /// fewer, not below zero), and push it back under a fresh id.
    method UpdateRunningTasks(agentId: string, up: bool) returns (r: Result<(), GenericError>)
      requires Valid()
      modifies this
      ensures Valid()
      ensures r.Ok? <==> agentId in old(Live())
      ensures r.Err? ==> r.error == MissingAgents && State() == old(State())
      ensures r.Ok? ==> Live() == old(Live())[agentId :=
                 if up then old(Live())[agentId].IncRunningTasks() else old(Live())[agentId].DecRunningTasks()]
    {
      ghost var s0 := State();
      var removed := Remove(agentId);
      if removed.Err? {
        return Err(removed.error);
      }
      var meta := removed.value;
      meta := if up then meta.IncRunningTasks() else meta.DecRunningTasks();
      Push(meta);
      RemoveThenPush(s0, agentId, meta);
      r := Ok(());
    }
  }

  /// After an agent is removed, the heap can hold only its stale entry: the
  /// queue then reports itself non-empty, yet popping finds no agent.
  method StaleEntryOnly(meta: AgentMeta) returns (empty: bool, popped: Result<AgentMeta, GenericError>)
    ensures !empty && popped == Err(MissingAgents)
  {
    var q := new AgentPriorityQueue();
    q.Push(meta);
    var _ := q.Remove(meta.agentId);
    empty := q.IsEmpty();
    popped := q.Pop();
  }
}
