/** The scheduler and the wait engine on linked lists: each function keeps the heap a layout of the state. */
module HeapKernel {
  import opened Wrappers
  import opened ReadyBitmap
  import BitmapWord
  import opened KernelState
  import opened TaskLists
  import opened Placement
  import opened DelayLists
  import opened IntrusiveList
  import opened Validate
  import opened HeapLists
  import opened Representation
  import S = Sched

  /** The lists of s are exact, except that the tasks in x are on their way between lists. */
  ghost predicate Exact(s: State, x: set<TaskId>) {
    Containers(s, x) && DelayPlaced(s.tasks, s.delayed) && DelayDistinct(s.delayed)
  }

  // ----- Changes of fields

  method MarkFilled(h: KernelHeap, ghost s: State, p: Priority)
    requires LaidOut(h, s)
    modifies h`bitmap
    ensures LaidOut(h, s) && BitmapWord.Bits(h.bitmap) == BitmapWord.Bits(old(h.bitmap)) + {p}
    ensures SameParts(h)
  {
    h.bitmap := BitmapWord.SetBit(h.bitmap, p);
    LayoutKept(Laid(h, s));
  }

  /** Clears the bit of p if its ready list has become empty. */
  method MarkEmptied(h: KernelHeap, ghost s: State, p: Priority)
    requires LaidOut(h, s)
    modifies h`bitmap
    ensures LaidOut(h, s)
    ensures BitmapWord.Bits(h.bitmap) ==
            if At(s.lists, ReadyList(p)) == [] then BitmapWord.Bits(old(h.bitmap)) - {p}
              else BitmapWord.Bits(old(h.bitmap))
    ensures SameParts(h)
  {
    Header(h, s, Scheduled(ReadyList(p)));
    if h.ready[p].size == 0 { h.bitmap := BitmapWord.ClearBit(h.bitmap, p); }
    LayoutKept(Laid(h, s));
  }

  datatype Step = Step(h: KernelHeap, s: State, r: State)

  /** The TCBs and the scalars show r, whose tasks are those of s. */
  twostate lemma TcbsStand(m: Step)
    requires old(Represents(m.h, m.s)) && m.r.tasks == m.s.tasks
    requires unchanged(m.h`tasks, m.h`ready, m.h`delayed, m.h`waits, m.h`initialized, m.h`taskCount, m.h`px,
             m.h`overflow, m.h`current)
    requires unchanged(m.h.tasks)
    requires m.r == m.s.(lists := m.r.lists, bitmap := m.r.bitmap, delayed := m.r.delayed)
             && BitmapWord.Bits(m.h.bitmap) == m.r.bitmap
    requires LaidOut(m.h, m.r)
    ensures Represents(m.h, m.r)
  {
    forall u: TaskId ensures Shows(m.h, m.r, u) { assert old(Shows(m.h, m.s, u)); }
  }

  /** State r is s with q in the place k, and perhaps with another bitmap. */
  ghost predicate Replaces(s: State, k: Place, q: seq<TaskId>, r: State) {
    && r == s.(lists := r.lists, bitmap := r.bitmap, delayed := r.delayed)
    && forall j: Place :: QueueAt(r, j) == if j == k then q else QueueAt(s, j)
  }

  datatype Relist = Relist(h: KernelHeap, s: State, k: Place, q: seq<TaskId>, r: State)

  /** After an operation on the list of k the heap represents the new state. */
  twostate lemma Relisted(m: Relist)
    requires old(Represents(m.h, m.s)) && LaidOut(m.h, SetQueueAt(m.s, m.k, m.q)) && Replaces(m.s, m.k, m.q, m.r)
    requires unchanged(m.h`tasks, m.h`ready, m.h`delayed, m.h`waits, m.h`initialized, m.h`taskCount, m.h`px,
             m.h`overflow, m.h`current)
    requires unchanged(m.h.tasks) && BitmapWord.Bits(m.h.bitmap) == m.r.bitmap
    ensures Represents(m.h, m.r)
  {
    SameLayout(m.h, SetQueueAt(m.s, m.k, m.q), m.r);
    TcbsStand(Step(m.h, m.s, m.r));
  }

  // ----- Ready lists

  /** os_ReadyEnqueue */
  method ReadyEnqueue(h: KernelHeap, ghost s: State, ghost x: set<TaskId>, t: TaskId)
    requires Represents(h, s) && Exact(s, x)
    modifies h`bitmap, h.headers, h.nodes
    ensures Represents(h, S.ReadyEnqueue(s, t))
    ensures SameParts(h)
  {
    var task := h.tasks[t];
    ReadyLinked(h, s, x, t);
    if task.state != Ready || task.scheduleNode.linked { return; }
    EnlistReady(h, s, task.eff, task, t, S.ReadyEnqueue(s, t));
  }

  method EnlistReady(h: KernelHeap, ghost s: State, p: Priority, task: Tcb, ghost t: TaskId, ghost r: State)
    requires Represents(h, s) && task == h.tasks[t] && !task.scheduleNode.linked
    requires Replaces(s, Scheduled(ReadyList(p)), At(s.lists, ReadyList(p)) + [t], r) && r.bitmap == s.bitmap + {p}
    modifies h`bitmap, h.headers, h.nodes
    ensures Represents(h, r)
    ensures SameParts(h)
  {
    ghost var k, q := Scheduled(ReadyList(p)), At(s.lists, ReadyList(p)) + [t];
    Append(h, s, h.ready[p], task.scheduleNode, k, t);
    MarkFilled(h, SetQueueAt(s, k, q), p);
    Relisted(Relist(h, s, k, q, r));
  }

  /** For a ready task, being linked means being in the ready list of its priority. */
  lemma ReadyLinked(h: KernelHeap, s: State, x: set<TaskId>, t: TaskId)
    requires Represents(h, s) && Exact(s, x)
    ensures h.tasks[t].state == s.tasks[t].state && h.tasks[t].eff == s.tasks[t].eff
    ensures s.tasks[t].state == Ready ==>
              (h.tasks[t].scheduleNode.linked <==> t in At(s.lists, ReadyList(s.tasks[t].eff)))
                && (h.tasks[t].scheduleNode.linked <==> t !in x)
  {
    TcbIs(h, s, t);
    LinkedIsHome(h, s, t, x);
    assert s.tasks[t].state == Ready ==> Home(s.tasks[t]) == Some(ReadyList(s.tasks[t].eff));
  }

  /** os_ReadyRemove */
  method ReadyRemove(h: KernelHeap, ghost s: State, ghost x: set<TaskId>, t: TaskId) returns (removed: bool)
    requires Represents(h, s) && Exact(s, x) && s.tasks[t].state == Ready
    modifies h`bitmap, h.headers, h.nodes
    ensures Represents(h, S.ReadyRemove(s, t)) && removed == (t !in x)
    ensures SameParts(h)
  {
    var task := h.tasks[t];
    ReadyLinked(h, s, x, t);
    if !task.scheduleNode.linked { return false; }
    assert NoDuplicates(At(s.lists, ReadyList(s.tasks[t].eff)));
    UnlistReady(h, s, task.eff, task, t, S.ReadyRemove(s, t));
    return true;
  }

  method UnlistReady(h: KernelHeap, ghost s: State, p: Priority, task: Tcb, ghost t: TaskId, ghost r: State)
    requires Represents(h, s) && task == h.tasks[t] && t in At(s.lists, ReadyList(p))
             && NoDuplicates(At(s.lists, ReadyList(p)))
    requires var q := Without(At(s.lists, ReadyList(p)), t);
             Replaces(s, Scheduled(ReadyList(p)), q, r) && r.bitmap == if q == [] then s.bitmap - {p} else s.bitmap
    modifies h`bitmap, h.headers, h.nodes
    ensures Represents(h, r)
    ensures SameParts(h)
  {
    ghost var k, q := Scheduled(ReadyList(p)), Without(At(s.lists, ReadyList(p)), t);
    Unlist(h, s, h.ready[p], task.scheduleNode, k, t);
    MarkEmptied(h, SetQueueAt(s, k, q), p);
    Relisted(Relist(h, s, k, q, r));
  }

  method ReadyHighestPriority(h: KernelHeap, ghost s: State) returns (p: int)
    requires Represents(h, s)
    ensures p == S.ReadyHighest(s)
  {
    p := PRIORITY_COUNT - 1;
    while p >= 0
      invariant -1 <= p < PRIORITY_COUNT
      invariant HighestIn(s.bitmap, PRIORITY_COUNT - 1) == HighestIn(s.bitmap, p)
    {
      if BitmapWord.HasBit(h.bitmap, p) { return; }
      p := p - 1;
    }
  }

  /** os_ReadyPopHighest */
  method ReadyPopHighest(h: KernelHeap, ghost s: State) returns (c: Tcb?)
    requires Represents(h, s) && Exact(s, {})
    modifies h`bitmap, h.headers, h.nodes
    ensures Represents(h, S.PopHighest(s).0)
    ensures c == if S.PopHighest(s).1.Some? then h.tasks[S.PopHighest(s).1.value] else null
    ensures SameParts(h)
  {
    ReadyHighestIsHighest(s);
    var p := ReadyHighestPriority(h, s);
    if p < 0 { return null; }
    assert NoDuplicates(At(s.lists, ReadyList(p)));
    c := PopReady(h, s, p, S.PopHighest(s).0);
  }

  method PopReady(h: KernelHeap, ghost s: State, p: Priority, ghost r: State) returns (c: Tcb)
    requires Represents(h, s) && At(s.lists, ReadyList(p)) != [] && NoDuplicates(At(s.lists, ReadyList(p)))
    requires var q := At(s.lists, ReadyList(p))[1..];
             Replaces(s, Scheduled(ReadyList(p)), q, r) && r.bitmap == if q == [] then s.bitmap - {p} else s.bitmap
    modifies h`bitmap, h.headers, h.nodes
    ensures c == h.tasks[At(s.lists, ReadyList(p))[0]] && Represents(h, r)
    ensures SameParts(h)
  {
    ghost var k, q := Scheduled(ReadyList(p)), At(s.lists, ReadyList(p))[1..];
    c := PopTask(h, s, h.ready[p], k);
    MarkEmptied(h, SetQueueAt(s, k, q), p);
    Relisted(Relist(h, s, k, q, r));
  }

  // ----- Waiting lists

  /** os_WaitInsertByPriority: the scan follows the node pointers. */
  method WaitInsertByPriority(h: KernelHeap, ghost s: State, list: List, task: Tcb, ghost l: WaitId, ghost t: TaskId)
    requires Represents(h, s) && list == h.waits[l] && task == h.tasks[t] && !task.scheduleNode.linked
    modifies h.headers, h.nodes
    ensures Represents(h, S.WaitInsert(s, l, t))
    ensures SameParts(h)
  {
    ghost var q := At(s.lists, WaitList(l));
    ghost var r := S.WaitInsert(s, l, t);
    TcbIs(h, s, t);
    CanWalk(h, s, Scheduled(WaitList(l)));
    var i, node := WaitPosition(h, s, list, task.eff, Scheduled(WaitList(l)));
    Enlist(h, s, list, node, task.scheduleNode, Scheduled(WaitList(l)), t, i);
    Relisted(Relist(h, s, Scheduled(WaitList(l)), InsertAt(q, i, t), r));
  }

  /** The end of both scans: before the node found, or at the end of the list. */
  method Enlist(h: KernelHeap, ghost s: State, list: List, position: Node?, node: Node, ghost k: Place, ghost t: TaskId,
      ghost i: nat)
    requires LaidOut(h, s) && list == HeaderOf(h, k) && node == NodeOf(h, t, k) && !node.linked
    requires i <= |QueueAt(s, k)| && position == NodeAt(h, QueueAt(s, k), k, i)
    modifies h.headers, h.nodes
    ensures LaidOut(h, SetQueueAt(s, k, InsertAt(QueueAt(s, k), i, t)))
    ensures SameParts(h)
  {
    if position != null {
      Insert(h, s, list, position, node, k, t, i);
    } else {
      assert InsertAt(QueueAt(s, k), i, t) == QueueAt(s, k) + [t];
      Append(h, s, list, node, k, t);
    }
  }

  /** The first waiter with a lower priority, if there is one. */
  method WaitPosition(h: KernelHeap, ghost s: State, list: List, eff: nat, ghost k: Place)
      returns (ghost i: nat, node: Node?)
    requires Complete(h) && Walks(h, s, list, k)
    ensures i == PriorityPos(s.tasks, QueueAt(s, k), eff) && node == NodeAt(h, QueueAt(s, k), k, i)
  {
    ghost var q := QueueAt(s, k);
    i := 0;
    node := list.head;
    while node != null
      invariant i <= |q| && node == NodeAt(h, q, k, i)
      invariant forall j :: 0 <= j < i ==> s.tasks[q[j]].eff >= eff
      decreases |q| - i
    {
      assert WalkAt(h, s, k, i);
      if eff > node.owner.eff { break; }
      node := node.next;
      i := i + 1;
    }
    PriorityPosIs(s.tasks, q, eff, i);
  }

  /** The node of the i-th task of q, or NULL behind the last one. */
  ghost function NodeAt(h: KernelHeap, q: seq<TaskId>, k: Place, i: nat): Node?
    requires Complete(h)
    reads h, h.tasks
  {
    if i < |q| then NodeOf(h, q[i], k) else null
  }

  /** What a walk finds at the i-th node: the fields of its task, and the way to the next one. */
  ghost predicate WalkAt(h: KernelHeap, s: State, k: Place, i: nat)
    requires Complete(h) && i < |QueueAt(s, k)|
    reads *
  {
    var n, t := NodeOf(h, QueueAt(s, k)[i], k), QueueAt(s, k)[i];
    && n.owner == h.tasks[t] && n.owner.eff == s.tasks[t].eff && n.owner.wakeTick == s.tasks[t].wakeTick
    && n.next == NodeAt(h, QueueAt(s, k), k, i + 1)
  }

  ghost predicate Walks(h: KernelHeap, s: State, list: List, k: Place)
    requires Complete(h)
    reads *
  {
    list.head == NodeAt(h, QueueAt(s, k), k, 0) && forall i: nat :: i < |QueueAt(s, k)| ==> WalkAt(h, s, k, i)
  }

  lemma CanWalk(h: KernelHeap, s: State, k: Place)
    requires Represents(h, s)
    ensures Walks(h, s, HeaderOf(h, k), k)
  {
    Header(h, s, k);
    forall i: nat | i < |QueueAt(s, k)| ensures WalkAt(h, s, k, i) {
      TcbIs(h, s, QueueAt(s, k)[i]);
      assert InPlace(NodesAt(h, QueueAt(s, k), k), i);
    }
  }

  /** os_WaitPop */
  method WaitPop(h: KernelHeap, ghost s: State, list: List, ghost l: WaitId) returns (c: Tcb?)
    requires Represents(h, s) && list == h.waits[l] && NoDuplicates(At(s.lists, WaitList(l)))
    modifies h.headers, h.nodes
    ensures Represents(h, S.WaitPop(s, l).0)
    ensures c == if S.WaitPop(s, l).1.Some? then h.tasks[S.WaitPop(s, l).1.value] else null
    ensures SameParts(h)
  {
    Header(h, s, Scheduled(WaitList(l)));
    if list.head == null { return null; }
    ghost var k, q := Scheduled(WaitList(l)), At(s.lists, WaitList(l))[1..];
    c := PopTask(h, s, list, k);
    Relisted(Relist(h, s, k, q, S.WaitPop(s, l).0));
  }

  /** os_ListRemove on the waiting list of task t. */
  method LeaveWaitList(h: KernelHeap, ghost s: State, list: List, task: Tcb, ghost l: WaitId, ghost t: TaskId)
    requires Represents(h, s) && list == h.waits[l] && task == h.tasks[t]
    requires t in At(s.lists, WaitList(l)) && NoDuplicates(At(s.lists, WaitList(l)))
    modifies h.headers, h.nodes
    ensures Represents(h, s.(lists := SetAt(s.lists, WaitList(l), Without(At(s.lists, WaitList(l)), t))))
    ensures SameParts(h)
  {
    ghost var r := s.(lists := SetAt(s.lists, WaitList(l), Without(At(s.lists, WaitList(l)), t)));
    Unlist(h, s, list, task.scheduleNode, Scheduled(WaitList(l)), t);
    Relisted(Relist(h, s, Scheduled(WaitList(l)), Without(At(s.lists, WaitList(l)), t), r));
  }

  // ----- Writing one TCB

  /** The delay list of a task is the one that holds its delay node. */
  lemma DelayLinked(h: KernelHeap, s: State, t: TaskId)
    requires Represents(h, s) && DelayPlaced(s.tasks, s.delayed)
    ensures h.tasks[t].delayNode.linked <==> s.tasks[t].delayList.Some?
    ensures h.tasks[t].delayList == if s.tasks[t].delayList.Some? then h.delayed[s.tasks[t].delayList.value] else null
    ensures s.tasks[t].delayList.Some? ==> t in s.delayed[s.tasks[t].delayList.value]
  {
    TcbIs(h, s, t);
    LinkedIsDelayed(h, s, t);
  }

  /** Task t alone has changed fields; r shows it, and nothing else is different. */
  twostate lemma TcbChanged(m: Step)
    requires old(Represents(m.h, m.s))
    requires unchanged(m.h)
    requires forall u: TaskId :: m.h.tasks[u].id == old(m.h.tasks[u].id)
    requires forall u: TaskId, j: Place :: NodeOf(m.h, u, j) == old(NodeOf(m.h, u, j))
    requires forall u: TaskId :: (unchanged(m.h.tasks[u]) && m.r.tasks[u] == m.s.tasks[u]) || Shows(m.h, m.r, u)
    requires unchanged(old(m.h.headers)) && unchanged(old(m.h.nodes))
    requires m.r == m.s.(tasks := m.r.tasks)
    ensures Represents(m.h, m.r)
  {
    LayoutKept(Laid(m.h, m.s));
    SameLayout(m.h, m.s, m.r);
    forall u: TaskId ensures Shows(m.h, m.r, u) { assert old(Shows(m.h, m.s, u)); }
  }

  lemma TcbReady(h: KernelHeap, s: State, t: TaskId)
    requires Represents(h, s)
    ensures Shows(h, s, t) && forall u: TaskId :: u != t ==> h.tasks[u] != h.tasks[t]
  {
    DistinctTcbs(h);
  }

  lemma DistinctTcbs(h: KernelHeap)
    requires forall u: TaskId :: h.tasks[u] != null && h.tasks[u].id == u
    ensures forall u: TaskId, v: TaskId :: h.tasks[u] == h.tasks[v] ==> u == v
  {
  }

  // ----- Writing one TCB

  method MarkAwake(h: KernelHeap, ghost s: State, t: TaskId)
    requires Represents(h, s)
    modifies TcbOf(h, t)`delayList
    ensures Represents(h, S.SetTask(s, t, s.tasks[t].(delayList := None)))
    ensures SameParts(h)
  {
    TcbReady(h, s, t);
    h.tasks[t].delayList := null;
    TcbChanged(Step(h, s, S.SetTask(s, t, s.tasks[t].(delayList := None))));
  }

  method MarkAsleep(h: KernelHeap, ghost s: State, t: TaskId, target: Tick, list: List, ghost d: DelayIndex)
    requires Represents(h, s) && list == h.delayed[d]
    modifies TcbOf(h, t)`delayList, TcbOf(h, t)`wakeTick
    ensures Represents(h, S.SetTask(s, t, s.tasks[t].(wakeTick := target, delayList := Some(d))))
    ensures SameParts(h)
  {
    TcbReady(h, s, t);
    h.tasks[t].wakeTick := target;
    h.tasks[t].delayList := list;
    TcbChanged(Step(h, s, S.SetTask(s, t, s.tasks[t].(wakeTick := target, delayList := Some(d)))));
  }

  method MarkWoken(h: KernelHeap, ghost s: State, t: TaskId, ghost result: Status)
    requires Represents(h, s)
    modifies TcbOf(h, t)`waiting, TcbOf(h, t)`waitList, TcbOf(h, t)`deadline, TcbOf(h, t)`state
    ensures Represents(h, S.SetTask(s, t, S.Woken(s.tasks[t], result)))
    ensures SameParts(h)
  {
    ghost var s1 := S.SetTask(s, t, s.tasks[t].(wait := None, deadline := 0, result := result));
    MarkServed(h, s, t, result);
    MarkState(h, s1, t, Ready, s1.tasks[t].slice);
    assert S.SetTask(s1, t, s1.tasks[t].(state := Ready, slice := s1.tasks[t].slice)) ==
      S.SetTask(s, t, S.Woken(s.tasks[t], result));
  }

  method MarkServed(h: KernelHeap, ghost s: State, t: TaskId, ghost result: Status)
    requires Represents(h, s)
    modifies TcbOf(h, t)`waiting, TcbOf(h, t)`waitList, TcbOf(h, t)`deadline
    ensures Represents(h, S.SetTask(s, t, s.tasks[t].(wait := None, deadline := 0, result := result)))
    ensures SameParts(h)
  {
    TcbReady(h, s, t);
    var task := h.tasks[t];
    task.waiting := false;
    task.waitList := null;
    task.deadline := 0;
    TcbChanged(Step(h, s, S.SetTask(s, t, s.tasks[t].(wait := None, deadline := 0, result := result))));
  }

  method MarkState(h: KernelHeap, ghost s: State, t: TaskId, state: TaskState, ghost slice: nat)
    requires Represents(h, s)
    modifies TcbOf(h, t)`state
    ensures Represents(h, S.SetTask(s, t, s.tasks[t].(state := state, slice := slice)))
    ensures SameParts(h)
  {
    TcbReady(h, s, t);
    h.tasks[t].state := state;
    TcbChanged(Step(h, s, S.SetTask(s, t, s.tasks[t].(state := state, slice := slice))));
  }

  method MarkPriority(h: KernelHeap, ghost s: State, t: TaskId, p: Priority)
    requires Represents(h, s)
    modifies TcbOf(h, t)`eff
    ensures Represents(h, S.SetTask(s, t, s.tasks[t].(eff := p)))
    ensures SameParts(h)
  {
    TcbReady(h, s, t);
    h.tasks[t].eff := p;
    TcbChanged(Step(h, s, S.SetTask(s, t, s.tasks[t].(eff := p))));
  }

  // ----- Delay lists

  /** os_TimeDelayListRemove */
  method TimeDelayListRemove(h: KernelHeap, ghost s: State, t: TaskId)
    requires Represents(h, s) && DelayPlaced(s.tasks, s.delayed) && DelayDistinct(s.delayed)
    modifies TcbOf(h, t)`delayList, h.headers, h.nodes
    ensures Represents(h, S.DelayRemove(s, t))
    ensures SameParts(h)
  {
    DelayLinked(h, s, t);
    var task := h.tasks[t];
    if !task.delayNode.linked || task.delayList == null { return; }
    ghost var d := s.tasks[t].delayList.value;
    ghost var s1 := LeaveDelayList(h, s, task.delayList, task, d, t);
    MarkAwake(h, s1, t);
  }

  method LeaveDelayList(h: KernelHeap, ghost s: State, list: List, task: Tcb, ghost d: DelayIndex, ghost t: TaskId)
      returns (ghost r: State)
    requires Represents(h, s) && list == h.delayed[d] && task == h.tasks[t] && t in s.delayed[d]
             && DelayDistinct(s.delayed)
    modifies h.headers, h.nodes
    ensures r == s.(delayed := s.delayed[d := Without(s.delayed[d], t)]) && Represents(h, r)
    ensures SameParts(h)
  {
    Unlist(h, s, list, task.delayNode, Delayed(d), t);
    r := s.(delayed := s.delayed[d := Without(s.delayed[d], t)]);
    Relisted(Relist(h, s, Delayed(d), Without(s.delayed[d], t), r));
  }

  /** The first sleeper that wakes later than target, if there is one. */
  method DelayPosition(h: KernelHeap, ghost s: State, list: List, ghost k: Place, target: Tick)
      returns (ghost i: nat, node: Node?)
    requires Complete(h) && Walks(h, s, list, k)
    ensures i == WakePos(s.tasks, QueueAt(s, k), target) && node == NodeAt(h, QueueAt(s, k), k, i)
  {
    ghost var q := QueueAt(s, k);
    i := 0;
    node := list.head;
    while node != null
      invariant i <= |q| && node == NodeAt(h, q, k, i)
      invariant forall j :: 0 <= j < i ==> s.tasks[q[j]].wakeTick <= target
      decreases |q| - i
    {
      assert WalkAt(h, s, k, i);
      if target < node.owner.wakeTick { break; }
      node := node.next;
      i := i + 1;
    }
    WakePosIs(s.tasks, q, target, i);
  }

  /** os_TimeDelayListInsert; `now` is the clock. */
  method TimeDelayListInsert(h: KernelHeap, ghost s: State, t: TaskId, target: Tick, now: Tick)
    requires Represents(h, s) && DelayPlaced(s.tasks, s.delayed) && DelayDistinct(s.delayed) && now == s.tick
    modifies TcbOf(h, t)`delayList, TcbOf(h, t)`wakeTick, h.headers, h.nodes
    ensures Represents(h, S.DelayInsert(s, t, target))
    ensures SameParts(h)
  {
    ghost var d, s1, r := InsertedSleeper(s, t, target);
    TimeDelayListRemove(h, s, t);
    RemovedIsUnlinked(h, s, s1, t);
    var list := WakeList(h, s1, target, now, d);
    EnterAsleep(h, s1, list, d, t, target, r);
  }

  lemma InsertedSleeper(s: State, t: TaskId, target: Tick) returns (d: DelayIndex, s1: State, r: State)
    ensures s1 == S.DelayRemove(s, t) && d == (if target < s1.tick then 1 - s1.px else s1.px) && s1.tick == s.tick
    ensures var s2 :=
              s1.(delayed := s1.delayed[d := InsertAt(s1.delayed[d], WakePos(s1.tasks, s1.delayed[d], target), t)]);
            r == S.SetTask(s2, t, s2.tasks[t].(wakeTick := target, delayList := Some(d)))
    ensures r == S.DelayInsert(s, t, target)
  {
    s1 := S.DelayRemove(s, t);
    d := if target < s1.tick then 1 - s1.px else s1.px;
    r := S.DelayInsert(s, t, target);
  }

  /** The delay list of the epoch in which the target lies. */
  method WakeList(h: KernelHeap, ghost s: State, target: Tick, now: Tick, ghost d: DelayIndex) returns (list: List)
    requires Represents(h, s) && now == s.tick && d == if target < now then 1 - s.px else s.px
    ensures list == h.delayed[d]
  {
    list := if target < now then h.overflow else h.px;
  }

  method EnterAsleep(h: KernelHeap, ghost s: State, list: List, ghost d: DelayIndex, t: TaskId, target: Tick,
      ghost r: State)
    requires Represents(h, s) && list == h.delayed[d] && !h.tasks[t].delayNode.linked
    requires var s2 := s.(delayed := s.delayed[d := InsertAt(s.delayed[d], WakePos(s.tasks, s.delayed[d], target), t)]);
             r == S.SetTask(s2, t, s2.tasks[t].(wakeTick := target, delayList := Some(d)))
    modifies TcbOf(h, t)`delayList, TcbOf(h, t)`wakeTick, h.headers, h.nodes
    ensures Represents(h, r)
    ensures SameParts(h)
  {
    ghost var s2 := EnterDelayList(h, s, list, h.tasks[t], d, t, target);
    MarkAsleep(h, s2, t, target, list, d);
  }

  lemma RemovedIsUnlinked(h: KernelHeap, s: State, s1: State, t: TaskId)
    requires DelayPlaced(s.tasks, s.delayed) && DelayDistinct(s.delayed) && s1 == S.DelayRemove(s, t)
             && Represents(h, s1)
    ensures !h.tasks[t].delayNode.linked
  {
    if s.tasks[t].delayList.Some? {
      var d := s.tasks[t].delayList.value;
      assert t in s.delayed[d];
      WithoutMembers(s.delayed[d], t);
    }
    assert forall d: DelayIndex :: t in s.delayed[d] <==> s.tasks[t].delayList == Some(d);
    assert NodeOf(h, t, Delayed(0)).linked <==> InSome(s1, t, false);
    assert forall k: Place :: k.Delayed? ==> t !in QueueAt(s1, k);
  }

  method EnterDelayList(h: KernelHeap, ghost s: State, list: List, task: Tcb, ghost d: DelayIndex, ghost t: TaskId,
      target: Tick)
    returns (ghost r: State)
    requires Represents(h, s) && list == h.delayed[d] && task == h.tasks[t] && !task.delayNode.linked
    modifies h.headers, h.nodes
    ensures r == s.(delayed := s.delayed[d := InsertAt(s.delayed[d], WakePos(s.tasks, s.delayed[d], target), t)])
    ensures Represents(h, r)
    ensures SameParts(h)
  {
    ghost var q := s.delayed[d];
    CanWalk(h, s, Delayed(d));
    var i, node := DelayPosition(h, s, list, Delayed(d), target);
    r := s.(delayed := s.delayed[d := InsertAt(q, i, t)]);
    Enlist(h, s, list, node, task.delayNode, Delayed(d), t, i);
    Relisted(Relist(h, s, Delayed(d), InsertAt(q, i, t), r));
  }

  // ----- The wait engine and the switch decision

  /** os_WaitMakeReady */
  method WaitMakeReady(h: KernelHeap, ghost s: State, ghost x: set<TaskId>, t: TaskId, ghost result: Status)
    requires Represents(h, s) && Exact(s, x) && AllWaiting(s)
    modifies h`bitmap, TcbOf(h, t)`delayList, TcbOf(h, t)`waiting, TcbOf(h, t)`waitList, TcbOf(h, t)`deadline,
             TcbOf(h, t)`state
    modifies h.headers, h.nodes
    ensures Represents(h, S.MakeReady(s, t, result))
    ensures SameParts(h)
  {
    WaiterLinked(h, s, x, t);
    var task := h.tasks[t];
    if task.state != BlockedObject || task.scheduleNode.linked { return; }
    ghost var s1 := S.DelayRemove(s, t);
    ghost var s2 := S.SetTask(s1, t, S.Woken(s1.tasks[t], result));
    assert S.MakeReady(s, t, result) == S.ReadyEnqueue(s2, t);
    WokenExact(s, s1, s2, x, t, result);
    TimeDelayListRemove(h, s, t);
    MarkWoken(h, s1, t, result);
    ReadyEnqueue(h, s2, x, t);
  }

  /** Tasks blocked on an object know which. */
  ghost predicate AllWaiting(s: State) {
    forall t: TaskId :: s.tasks[t].state == BlockedObject ==> s.tasks[t].wait.Some?
  }

  lemma WaiterLinked(h: KernelHeap, s: State, x: set<TaskId>, t: TaskId)
    requires Represents(h, s) && Exact(s, x) && AllWaiting(s)
    ensures h.tasks[t].state == s.tasks[t].state
    ensures s.tasks[t].state == BlockedObject ==>
              (h.tasks[t].scheduleNode.linked <==> t in At(s.lists, WaitList(s.tasks[t].wait.value)))
                && (h.tasks[t].scheduleNode.linked <==> t !in x)
  {
    TcbIs(h, s, t);
    LinkedIsHome(h, s, t, x);
    assert s.tasks[t].state == BlockedObject ==> Home(s.tasks[t]) == Some(WaitList(s.tasks[t].wait.value));
  }

  lemma WokenExact(s: State, s1: State, s2: State, x: set<TaskId>, t: TaskId, result: Status)
    requires Exact(s, x) && t in x && s1 == S.DelayRemove(s, t) && s2 == S.SetTask(s1, t, S.Woken(s1.tasks[t], result))
    ensures Exact(s2, x)
  {
    if s.tasks[t].delayList.Some? {
      var d := s.tasks[t].delayList.value;
      assert t in s.delayed[d];
      WithoutMembers(s.delayed[d], t);
      DelayPlacedUpdate(s.tasks, s.delayed, t, s2.tasks[t], d, Without(s.delayed[d], t));
    }
    RetaskKeeps(s, t, s2.tasks[t], x);
    SameContainers(S.SetTask(s, t, s2.tasks[t]), s2, x);
  }

  lemma SameContainers(a: State, b: State, x: set<TaskId>)
    requires Containers(a, x) && b.tasks == a.tasks && b.lists == a.lists && b.bitmap == a.bitmap
    ensures Containers(b, x)
  {
  }

  /** os_TaskSetEffectivePriority */
  method TaskSetEffectivePriority(h: KernelHeap, ghost s: State, ghost x: set<TaskId>, t: TaskId, p: nat)
    requires Represents(h, s) && Exact(s, x) && AllWaiting(s)
             && forall u: TaskId :: u in x ==> s.tasks[u].state != Ready
    modifies h`bitmap, TcbOf(h, t)`eff, h.headers, h.nodes
    ensures Represents(h, S.SetEffectivePriority(s, t, p))
    ensures SameParts(h)
  {
    WaiterLinked(h, s, x, t);
    TcbIs(h, s, t);
    var task := h.tasks[t];
    if p <= IDLE_PRIORITY || p >= PRIORITY_COUNT || task.eff == p { return; }
    if task.state == Ready {
      MoveReady(h, s, x, t, p);
    } else if task.state == BlockedObject && task.scheduleNode.linked && task.waitList != null {
      MoveWaiting(h, s, x, t, p, s.tasks[t].wait.value);
    } else {
      MarkPriority(h, s, t, p);
    }
  }

  method MoveReady(h: KernelHeap, ghost s: State, ghost x: set<TaskId>, t: TaskId, p: Priority)
    requires Represents(h, s) && Exact(s, x) && s.tasks[t].state == Ready && t !in x
    modifies h`bitmap, TcbOf(h, t)`eff, h.headers, h.nodes
    ensures Represents(h, S.MoveReady(s, t, p))
    ensures SameParts(h)
  {
    ghost var s1, s2 := MovedReady(s, x, t, p);
    var removed := ReadyRemove(h, s, x, t);
    MarkPriority(h, s1, t, p);
    ReadyEnqueue(h, s2, x + {t}, t);
  }

  lemma MovedReady(s: State, x: set<TaskId>, t: TaskId, p: Priority) returns (s1: State, s2: State)
    requires Exact(s, x) && s.tasks[t].state == Ready && t !in x
    ensures s1 == S.ReadyRemove(s, t) && s2 == S.SetTask(s1, t, s1.tasks[t].(eff := p))
    ensures Exact(s2, x + {t}) && S.ReadyEnqueue(s2, t) == S.MoveReady(s, t, p)
  {
    ReadyRemoveKeeps(s, t, x);
    s1 := S.ReadyRemove(s, t);
    RetaskKeeps(s1, t, s1.tasks[t].(eff := p), x + {t});
    s2 := S.SetTask(s1, t, s1.tasks[t].(eff := p));
  }

  method MoveWaiting(h: KernelHeap, ghost s: State, ghost x: set<TaskId>, t: TaskId, p: Priority, ghost l: WaitId)
    requires Represents(h, s) && Exact(s, x) && Home(s.tasks[t]) == Some(WaitList(l)) && t !in x
    modifies TcbOf(h, t)`eff, h.headers, h.nodes
    ensures t in At(s.lists, WaitList(l)) && Represents(h, S.MoveWaiting(s, t, p, l))
    ensures SameParts(h)
  {
    WaitRemoveKeeps(s, t, l, x);
    TcbIs(h, s, t);
    assert NoDuplicates(At(s.lists, WaitList(l)));
    var list := h.tasks[t].waitList;
    LeaveWaitList(h, s, list, h.tasks[t], l, t);
    ghost var s1 := s.(lists := SetAt(s.lists, WaitList(l), Without(At(s.lists, WaitList(l)), t)));
    LinkedIsHome(h, s1, t, x + {t});
    MarkPriority(h, s1, t, p);
    WaitInsertByPriority(h, S.SetTask(s1, t, s.tasks[t].(eff := p)), list, h.tasks[t], l, t);
  }

  // ----- The switch decision

  /** os_CommitSwitch; c is the TCB of task next. */
  method CommitSwitch(h: KernelHeap, ghost s: State, c: Tcb?, ghost next: Option<TaskId>)
    requires Represents(h, s) && c == if next.Some? then h.tasks[next.value] else null
    modifies h`current, h.tcbs`state
    ensures Represents(h, S.CommitSwitch(s, next))
    ensures SameParts(h)
  {
    ghost var r := s;
    if c != null {
      r := S.SetTask(s, next.value, s.tasks[next.value].(state := Running, slice := TIME_SLICE_TICKS));
      TcbReady(h, s, next.value);
      assert TcbOf(h, next.value) in h.tcbs;
      MarkTcb(h, s, c, next.value, Running, TIME_SLICE_TICKS);
    }
    SetCurrent(h, r, c, next);
  }

  method MarkTcb(h: KernelHeap, ghost s: State, c: Tcb, ghost t: TaskId, state: TaskState, ghost slice: nat)
    requires Represents(h, s) && c == h.tasks[t]
    modifies c`state
    ensures Represents(h, S.SetTask(s, t, s.tasks[t].(state := state, slice := slice)))
    ensures SameParts(h)
  {
    TcbReady(h, s, t);
    c.state := state;
    TcbChanged(Step(h, s, S.SetTask(s, t, s.tasks[t].(state := state, slice := slice))));
  }

  method SetCurrent(h: KernelHeap, ghost s: State, c: Tcb?, ghost next: Option<TaskId>)
    requires Represents(h, s) && c == if next.Some? then h.tasks[next.value] else null
    modifies h`current
    ensures Represents(h, s.(current := next))
    ensures SameParts(h)
  {
    h.current := c;
    LayoutKept(Laid(h, s));
    SameLayout(h, s, s.(current := next));
    forall u: TaskId ensures Shows(h, s.(current := next), u) { assert old(Shows(h, s, u)); }
  }

  method PickNext(h: KernelHeap, ghost s: State)
    requires Represents(h, s) && Exact(s, {})
    modifies h`bitmap, h`current, h.tcbs`state, h.headers, h.nodes
    ensures Represents(h, S.PickNext(s))
    ensures SameParts(h)
  {
    var c := ReadyPopHighest(h, s);
    CommitSwitch(h, S.PopHighest(s).0, c, S.PopHighest(s).1);
  }

  /** The running task goes back to the end of its ready list. */
  method Requeue(h: KernelHeap, ghost s: State, t: TaskId)
    requires Represents(h, s) && Exact(s, {}) && s.tasks[t].state == Running
    modifies h`bitmap, TcbOf(h, t)`state, h.headers, h.nodes
    ensures Represents(h, S.Requeue(s, t)) && Exact(S.Requeue(s, t), {})
    ensures SameParts(h)
  {
    MarkState(h, s, t, Ready, s.tasks[t].slice);
    ghost var s1 := S.SetTask(s, t, s.tasks[t].(state := Ready));
    assert s1 == S.SetTask(s, t, s.tasks[t].(state := Ready, slice := s.tasks[t].slice));
    RequeueExact(s, t);
    ReadyEnqueue(h, s1, {t}, t);
  }

  lemma RequeueExact(s: State, t: TaskId)
    requires Exact(s, {}) && s.tasks[t].state == Running
    ensures Exact(S.SetTask(s, t, s.tasks[t].(state := Ready)), {t}) && Exact(S.Requeue(s, t), {})
  {
    HomelessIsFree(s, t, {});
    RetaskKeeps(s, t, s.tasks[t].(state := Ready), {t});
    EnqueueKeeps(S.SetTask(s, t, s.tasks[t].(state := Ready)), t, {t});
    assert {} + {t} == {t} && {t} - {t} == {};
  }

  /** os_SchedSchedule */
  method SchedSchedule(h: KernelHeap, ghost s: State, started: bool, rotateEqual: bool)
    requires Represents(h, s) && Exact(s, {}) && started == s.started
    modifies h`bitmap, h`current, h.tcbs`state, h.headers, h.nodes
    ensures Represents(h, S.Schedule(s, rotateEqual))
    ensures SameParts(h)
  {
    if !started { return; }
    CurrentTcb(h, s);
    ScheduleCases(s, rotateEqual);
    var c := h.current;
    if c == null || c.state != Running {
      PickNext(h, s);
      return;
    }
    var highest := ReadyHighestPriority(h, s);
    if highest < 0 { return; }
    if highest > c.eff || (rotateEqual && highest == c.eff) { Switch(h, s, c.id); }
  }

  lemma ScheduleCases(s: State, rotate: bool)
    requires s.started
    ensures !S.CurrentRuns(s) ==> S.Schedule(s, rotate) == S.PickNext(s)
    ensures S.CurrentRuns(s) ==> var (c, highest) := (s.current.value, S.ReadyHighest(s));
              S.Schedule(s, rotate) ==
              if highest > s.tasks[c].eff || (rotate && highest == s.tasks[c].eff) then S.PickNext(S.Requeue(s, c))
                else s
  {
  }

  lemma CurrentTcb(h: KernelHeap, s: State)
    requires Represents(h, s)
    ensures h.current != null <==> s.current.Some?
    ensures s.current.Some? ==> var t := s.current.value;
              h.current == h.tasks[t] && h.current.id == t && h.current.state == s.tasks[t].state
                && h.current.eff == s.tasks[t].eff
  {
    if s.current.Some? { TcbIs(h, s, s.current.value); }
  }

  method Switch(h: KernelHeap, ghost s: State, t: TaskId)
    requires Represents(h, s) && Exact(s, {}) && s.tasks[t].state == Running
    modifies h`bitmap, h`current, h.tcbs`state, h.headers, h.nodes
    ensures Represents(h, S.PickNext(S.Requeue(s, t)))
    ensures SameParts(h)
  {
    assert TcbOf(h, t) in h.tcbs;
    Requeue(h, s, t);
    PickNext(h, S.Requeue(s, t));
  }

  /** os_SchedYieldCurrent */
  method SchedYieldCurrent(h: KernelHeap, ghost s: State)
    requires Represents(h, s) && Exact(s, {})
    modifies h`bitmap, h`current, h.tcbs`state, h.headers, h.nodes
    ensures Represents(h, S.YieldCurrent(s))
    ensures SameParts(h)
  {
    CurrentTcb(h, s);
    if h.current == null || h.current.state != Running { return; }
    Switch(h, s, h.current.id);
  }

  /** os_SchedCurrentBlocked */
  method SchedCurrentBlocked(h: KernelHeap, ghost s: State)
    requires Represents(h, s) && Exact(s, {})
    modifies h`bitmap, h`current, h.tcbs`state, h.headers, h.nodes
    ensures Represents(h, S.CurrentBlocked(s))
    ensures SameParts(h)
  {
    CurrentTcb(h, s);
    if h.current == null || h.current.state == Running { return; }
    PickNext(h, s);
  }
}
