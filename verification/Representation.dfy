/** Every state the kernel can reach, laid out as linked lists, passes the consistency check. */
module Representation {
  import opened Wrappers
  import opened ReadyBitmap
  import BitmapWord
  import opened KernelState
  import opened TaskLists
  import opened KernelObjects
  import opened Inheritance
  import opened Placement
  import opened DelayLists
  import opened Invariants
  import opened InheritProofs
  import opened IntrusiveList
  import opened Validate
  import opened HeapLists
  import opened Machine

  predicate ShowsValues(c: Tcb, task: Task)
    reads c
  {
    && c.state == task.state && c.base == task.base && c.eff == task.eff
    && c.wakeTick == task.wakeTick && c.deadline == task.deadline
  }

  ghost predicate ShowsPointers(h: KernelHeap, c: Tcb, task: Task)
    requires Complete(h)
    reads h, c
  {
    && (c.waiting <==> task.wait.Some?)
    && c.delayList == (if task.delayList.Some? then h.delayed[task.delayList.value] else null)
    && c.waitList == (if task.wait.Some? then h.waits[task.wait.value] else null)
  }

  /** The TCB in memory shows what the abstract task says. */
  ghost predicate Shows(h: KernelHeap, s: State, t: TaskId)
    requires Complete(h)
    reads h, h.tasks[t]
  {
    ShowsValues(h.tasks[t], s.tasks[t]) && ShowsPointers(h, h.tasks[t], s.tasks[t])
  }

  /** The fields of the kernel other than its lists. */
  ghost predicate SameScalars(h: KernelHeap, s: State)
    requires Complete(h)
    reads h
  {
    && h.initialized && h.taskCount == s.taskCount && BitmapWord.Bits(h.bitmap) == s.bitmap
    && h.px == h.delayed[s.px] && h.overflow == h.delayed[1 - s.px]
    && h.current == (if s.current.Some? then h.tasks[s.current.value] else null)
  }

  /** The heap lays out the abstract state. */
  ghost predicate Represents(h: KernelHeap, s: State)
    reads *
  {
    LaidOut(h, s) && SameScalars(h, s) && forall t: TaskId :: Shows(h, s, t)
  }

  lemma TcbIs(h: KernelHeap, s: State, t: TaskId)
    requires Represents(h, s)
    ensures Shows(h, s, t) && WiredTcb(h.tasks[t], t)
  {
  }

  /** Exact containers mean that the `linked` flags follow from the task states. */
  lemma LinkedIsHome(h: KernelHeap, s: State, t: TaskId, x: set<TaskId>)
    requires Represents(h, s) && Containers(s, x)
    ensures h.tasks[t].scheduleNode.linked <==> t !in x && Home(s.tasks[t]).Some?
  {
    assert NodeOf(h, t, Scheduled(ReadyList(0))).linked <==> InSome(s, t, true);
    if InSome(s, t, true) {
      var k: Place :| k.Scheduled? && t in QueueAt(s, k);
      assert t in At(s.lists, k.list);
    }
    if t !in x && Home(s.tasks[t]).Some? { assert t in QueueAt(s, Scheduled(Home(s.tasks[t]).value)); }
  }

  lemma LinkedIsDelayed(h: KernelHeap, s: State, t: TaskId)
    requires Represents(h, s) && DelayPlaced(s.tasks, s.delayed)
    ensures h.tasks[t].delayNode.linked <==> s.tasks[t].delayList.Some?
  {
    assert NodeOf(h, t, Delayed(0)).linked <==> InSome(s, t, false);
    if InSome(s, t, false) {
      var k: Place :| k.Delayed? && t in QueueAt(s, k);
      assert t in s.delayed[k.index];
    }
    if s.tasks[t].delayList.Some? { assert t in QueueAt(s, Delayed(s.tasks[t].delayList.value)); }
  }

  /** The nodes that the check will find. */
  ghost function Layout(h: KernelHeap, s: State): (found: Found)
    requires Complete(h)
    reads *
    ensures |found.ready| == PRIORITY_COUNT
            && forall p: Priority :: found.ready[p] == NodesAt(h, At(s.lists, ReadyList(p)), Scheduled(ReadyList(p)))
    ensures |found.delayed| == 2 && forall d: DelayIndex :: found.delayed[d] == NodesAt(h, s.delayed[d], Delayed(d))
  {
    Found(seq(PRIORITY_COUNT, p requires 0 <= p < PRIORITY_COUNT && Complete(h) reads h, h.tasks =>
            NodesAt(h, At(s.lists, ReadyList(p)), Scheduled(ReadyList(p)))),
          seq(2, d requires 0 <= d < 2 && Complete(h) reads h, h.tasks => NodesAt(h, s.delayed[d], Delayed(d))))
  }

  lemma ShortEnough(q: seq<TaskId>)
    requires NoDuplicates(q)
    ensures |q| <= MAX_TASKS
  {
    var r := set t: nat | t in q;
    DistinctSize(q, r);
    SubrangeSize(r, MAX_TASKS);
  }

  lemma {:induction false} DistinctSize(q: seq<TaskId>, r: set<nat>)
    requires NoDuplicates(q) && forall t: TaskId :: t in q <==> t in r
    requires forall t :: t in r ==> t < MAX_TASKS
    ensures |q| == |r|
    decreases |q|
  {
    if q == [] {
      assert forall t: TaskId :: t !in r;
      assert forall t :: t in r ==> t < MAX_TASKS;
      assert r == {};
    } else {
      var n := |q| - 1;
      assert q[n] in q;
      forall t: TaskId ensures t in q[..n] <==> t in r - {q[n]} {
        if t in q && t != q[n] { var i :| 0 <= i < |q| && q[i] == t; assert q[..n][i] == t; }
      }
      DistinctSize(q[..n], r - {q[n]});
    }
  }

  // ----- The lists

  lemma ReadyPasses(h: KernelHeap, s: State, p: Priority)
    requires Represents(h, s) && Containers(s, {})
    ensures Passes(h.tasks, h.ready[p], ReadyAt(p), NodesAt(h, At(s.lists, ReadyList(p)), Scheduled(ReadyList(p))))
  {
    var k := Scheduled(ReadyList(p));
    var q := At(s.lists, ReadyList(p));
    var ns := NodesAt(h, q, k);
    assert Stored(h, s, k);
    assert NoDuplicates(q);
    ShortEnough(q);
    forall i | 0 <= i < |ns| ensures Fits(h.tasks, ns[i], ReadyAt(p)) {
      assert q[i] in At(s.lists, ReadyList(p));
      TcbIs(h, s, q[i]);
    }
  }

  lemma SleeperFits(h: KernelHeap, s: State, d: DelayIndex, t: TaskId)
    requires Represents(h, s) && DelayPlaced(s.tasks, s.delayed) && AllCoherent(s.tasks) && t in s.delayed[d]
    ensures var n := NodeOf(h, t, Delayed(d));
            Fits(h.tasks, n, DelayedIn(h.delayed[d])) && n.owner.wakeTick == s.tasks[t].wakeTick
  {
    TcbIs(h, s, t);
    assert Coherent(s.tasks[t]);
  }

  lemma SleepersFit(h: KernelHeap, s: State, d: DelayIndex)
    requires Represents(h, s) && DelayPlaced(s.tasks, s.delayed) && AllCoherent(s.tasks)
             && ByWakeTick(s.tasks, s.delayed[d])
    ensures AllFit(h.tasks, NodesAt(h, s.delayed[d], Delayed(d)), DelayedIn(h.delayed[d]))
  {
    var q := s.delayed[d];
    var ns := NodesAt(h, q, Delayed(d));
    forall i | 0 <= i < |ns|
      ensures Fits(h.tasks, ns[i], DelayedIn(h.delayed[d])) && ns[i].owner.wakeTick == s.tasks[q[i]].wakeTick
    {
      SleeperFits(h, s, d, q[i]);
    }
  }

  lemma DelayedPasses(h: KernelHeap, s: State, d: DelayIndex)
    requires Represents(h, s) && Delays(s, false) && AllCoherent(s.tasks)
    ensures Passes(h.tasks, h.delayed[d], DelayedIn(h.delayed[d]), NodesAt(h, s.delayed[d], Delayed(d)))
  {
    assert Stored(h, s, Delayed(d));
    ShortEnough(s.delayed[d]);
    SleepersFit(h, s, d);
  }

  // ----- The counters

  lemma {:induction false} OccursNodes(h: KernelHeap, s: State, q: seq<TaskId>, k: Place, t: TaskId)
    requires Represents(h, s) && NoDuplicates(q)
    ensures Occurs(NodesAt(h, q, k), t) == if t in q then 1 else 0
    decreases |q|
  {
    if q != [] {
      var n := |q| - 1;
      TcbIs(h, s, q[n]);
      assert NodesAt(h, q, k)[..n] == NodesAt(h, q[..n], k);
      OccursNodes(h, s, q[..n], k, t);
      assert q == q[..n] + [q[n]];
      assert q[n] !in q[..n];
    }
  }

  lemma {:induction false} OccursInThat(found: seq<seq<Node>>, t: TaskId, at: int)
    requires forall k: nat :: k < |found| ==> Occurs(found[k], t) == if k == at then 1 else 0
    ensures OccursIn(found, t) == if 0 <= at < |found| then 1 else 0
    decreases |found|
  {
    if found != [] {
      var k: nat := |found| - 1;
      forall j: nat | j < k ensures Occurs(found[..k][j], t) == if j == at then 1 else 0 {
        assert found[..k][j] == found[j];
      }
      OccursInThat(found[..k], t, at);
      assert Occurs(found[k], t) == if k == at then 1 else 0;
    }
  }

  lemma ReadyOccurs(h: KernelHeap, s: State, t: TaskId)
    requires Represents(h, s) && Containers(s, {})
    ensures OccursIn(Layout(h, s).ready, t) == if s.tasks[t].state == Ready then 1 else 0
  {
    var found := Layout(h, s).ready;
    var at := if s.tasks[t].state == Ready then s.tasks[t].eff else -1;
    forall p: nat | p < |found| ensures Occurs(found[p], t) == if p == at then 1 else 0 {
      var p': Priority := p;
      var q := At(s.lists, ReadyList(p'));
      assert found[p'] == NodesAt(h, q, Scheduled(ReadyList(p'))) && NoDuplicates(q);
      OccursNodes(h, s, q, Scheduled(ReadyList(p')), t);
      assert t in q <==> Home(s.tasks[t]) == Some(ReadyList(p'));
    }
    OccursInThat(found, t, at);
  }

  lemma DelayedOccurs(h: KernelHeap, s: State, t: TaskId)
    requires Represents(h, s) && Delays(s, false)
    ensures OccursIn(Layout(h, s).delayed, t) == if s.tasks[t].delayList.Some? then 1 else 0
  {
    var found := Layout(h, s).delayed;
    var at := if s.tasks[t].delayList.Some? then s.tasks[t].delayList.value else -1;
    forall d: nat | d < |found| ensures Occurs(found[d], t) == if d == at then 1 else 0 { DelayedOnce(h, s, d, t); }
    OccursInThat(found, t, at);
  }

  lemma DelayedOnce(h: KernelHeap, s: State, d: DelayIndex, t: TaskId)
    requires Represents(h, s) && Delays(s, false)
    ensures Occurs(Layout(h, s).delayed[d], t) == if s.tasks[t].delayList == Some(d) then 1 else 0
  {
    OccursNodes(h, s, s.delayed[d], Delayed(d), t);
    assert t in s.delayed[d] <==> s.tasks[t].delayList == Some(d);
  }

  // ----- Each task

  lemma PrioritiesAreFit(h: KernelHeap, s: State, t: TaskId)
    requires Represents(h, s) && PrioritiesInherited(s) && AllCoherent(s.tasks)
    ensures h.PrioritiesFit(h.tasks[t])
  {
    GraphIsWellFormed(s);
    InheritedIsClosed(GraphOf(s));
    assert GraphOf(s).base[t] == s.tasks[t].base && Priorities(s)[t] == s.tasks[t].eff;
    TcbIs(h, s, t);
    assert Coherent(s.tasks[t]);
  }

  lemma WaiterIsHeld(h: KernelHeap, s: State, t: TaskId)
    requires Represents(h, s) && Containers(s, {}) && s.tasks[t].state == BlockedObject && s.tasks[t].wait.Some?
    ensures h.Holds(h.tasks[t].waitList, h.tasks[t].scheduleNode)
  {
    var l := WaitList(s.tasks[t].wait.value);
    var q, k := At(s.lists, l), Scheduled(l);
    TcbIs(h, s, t);
    assert Stored(h, s, k);
    assert t in At(s.lists, l) && NoDuplicates(q);
    ShortEnough(q);
    var i :| 0 <= i < |q| && q[i] == t;
    StepIs(NodesAt(h, q, k), 0, i);
  }

  lemma TaskIsPlaced(h: KernelHeap, s: State, t: TaskId)
    requires Represents(h, s) && Inv(s)
    ensures h.WellPlaced(t, OccursIn(Layout(h, s).ready, t), OccursIn(Layout(h, s).delayed, t))
  {
    ReadyOccurs(h, s, t);
    DelayedOccurs(h, s, t);
    PrioritiesAreFit(h, s, t);
    TcbIs(h, s, t);
    LinkedIsHome(h, s, t, {});
    LinkedIsDelayed(h, s, t);
    assert Coherent(s.tasks[t]);
    if s.tasks[t].state == BlockedObject { WaiterIsHeld(h, s, t); }
  }

  lemma {:induction false} CountsAre(h: KernelHeap, s: State, k: nat)
    requires Represents(h, s) && PoolFits(s) && OneRuns(s.tasks, s.current) && k <= MAX_TASKS
    ensures h.Used(k) == if k < s.taskCount then k else s.taskCount
    ensures h.RunningBelow(k) == if s.current.Some? && s.current.value < k then 1 else 0
    decreases k
  {
    if k > 0 {
      CountsAre(h, s, k - 1);
      TcbIs(h, s, k - 1);
    }
  }

  lemma FilledIsBitmap(h: KernelHeap, s: State)
    requires Represents(h, s) && Containers(s, {})
    ensures BitmapWord.Bits(h.bitmap) == Filled(Layout(h, s).ready)
  {
    forall p: Priority ensures p in s.bitmap <==> Layout(h, s).ready[p] != [] {
      assert |Layout(h, s).ready[p]| == |At(s.lists, ReadyList(p))|;
    }
  }

  lemma ListsPass(h: KernelHeap, s: State)
    requires Represents(h, s) && Inv(s)
    ensures h.ReadyInOrder(Layout(h, s).ready) && h.DelayedInOrder(Layout(h, s).delayed)
  {
    var found := Layout(h, s);
    forall p: Priority ensures Passes(h.tasks, h.ready[p], ReadyAt(p), found.ready[p]) { ReadyPasses(h, s, p); }
    forall d: DelayIndex ensures Passes(h.tasks, h.delayed[d], DelayedIn(h.delayed[d]), found.delayed[d]) {
      DelayedPasses(h, s, d);
    }
  }

  lemma CountersFit(h: KernelHeap, s: State)
    requires Represents(h, s) && PoolFits(s) && OneRuns(s.tasks, s.current)
    ensures h.CountsFit()
  {
    CountsAre(h, s, MAX_TASKS);
    if s.current.Some? { TcbIs(h, s, s.current.value); }
  }

  lemma TasksArePlaced(h: KernelHeap, s: State)
    requires Represents(h, s) && Inv(s)
    ensures h.AllPlaced(Layout(h, s))
  {
    forall t: TaskId ensures h.WellPlaced(t, OccursIn(Layout(h, s).ready, t), OccursIn(Layout(h, s).delayed, t)) {
      TaskIsPlaced(h, s, t);
    }
  }

  lemma InvIsCertified(h: KernelHeap, s: State)
    requires Represents(h, s) && Inv(s)
    ensures h.Certified(Layout(h, s))
  {
    ListsPass(h, s);
    TasksArePlaced(h, s);
    FilledIsBitmap(h, s);
    CountersFit(h, s);
    Certify(h, s, Layout(h, s));
  }

  lemma Certify(h: KernelHeap, s: State, found: Found)
    requires Represents(h, s) && s.taskCount <= MAX_TASKS && |found.ready| == PRIORITY_COUNT && |found.delayed| == 2
    requires h.ReadyInOrder(found.ready) && h.DelayedInOrder(found.delayed)
             && BitmapWord.Bits(h.bitmap) == Filled(found.ready)
    requires h.AllPlaced(found) && h.CountsFit()
    ensures h.Certified(found)
  {
    assert HeaderOf(h, Delayed(0)) != HeaderOf(h, Delayed(1));
  }

  /** The authors' own check never fails: it accepts every layout of every reachable state. */
  lemma ReachableIsCertified(h: KernelHeap, s: State)
    requires Represents(h, s) && Reachable(s)
    ensures exists found: Found :: h.Certified(found)
  {
    ReachableInv(s);
    InvIsCertified(h, s);
  }
}
