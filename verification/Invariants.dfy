/** The invariant of the kernel, and what scheduling alone leaves untouched. */
module Invariants {
  import opened Wrappers
  import opened KernelState
  import opened KernelObjects
  import opened Inheritance
  import opened Placement
  import opened DelayLists

  // ----- Task control blocks

  /** The fields of one TCB agree with its state. */
  predicate Coherent(task: Task) {
    && (task.wait.Some? <==> task.state == BlockedObject)
    && (task.delayList.Some? ==> IsBlocked(task))
    && (task.state == BlockedDelay ==> task.delayList.Some?)
    && (task.state == BlockedObject ==>
          if task.delayList.Some? then task.wakeTick == task.deadline else task.deadline == WAIT_FOREVER)
    && (task.state == Unused ==> task == UNUSED_TASK)
    && (IsIdle(task) ==> task.eff == IDLE_PRIORITY)
  }

  ghost predicate AllCoherent(tasks: TaskPool) {
    forall t: TaskId :: Coherent(tasks[t])
  }

  ghost predicate OneRuns(tasks: TaskPool, current: Option<TaskId>) {
    forall t: TaskId :: tasks[t].state == Running <==> current == Some(t)
  }

  /** Lists, delay lists and TCBs fit together; x is on its way between lists. */
  ghost predicate Structure(s: State, x: set<TaskId>) {
    Containers(s, x) && Delays(s, false) && AllCoherent(s.tasks)
  }

  // ----- Kernel objects

  predicate IsAlive(task: Task) {
    task.state != Unused && task.state != Terminated
  }

  predicate OwnerFits(tasks: TaskPool, mutex: Mutex) {
    mutex.owner.Some? ==> mutex.used && IsAlive(tasks[mutex.owner.value]) && !IsIdle(tasks[mutex.owner.value])
  }

  predicate SemFits(sem: Semaphore) {
    sem.used ==> sem.maximum > 0 && sem.count <= sem.maximum
  }

  predicate QueueFits(q: Queue) {
    q.used ==>
      && q.capacity > 0 && |q.buffer| == q.capacity && q.count <= q.capacity && q.head < q.capacity
      && q.tail == (q.head + q.count) % q.capacity
  }

  /** Task t has a reason to wait on list w. */
  predicate FitsAt(s: State, t: TaskId, w: Option<WaitId>) {
    match w
    case None => true
    case Some(MutexList(m)) => s.mutexes[m].owner.Some? && s.mutexes[m].owner != Some(t) && !IsIdle(s.tasks[t])
    case Some(SemList(i)) => s.sems[i].used && s.sems[i].count == 0
    case Some(SendList(i)) => s.queues[i].used && s.queues[i].count == s.queues[i].capacity
    case Some(ReceiveList(i)) => s.queues[i].used && s.queues[i].count == 0
  }

  predicate WaitFits(s: State, t: TaskId) {
    FitsAt(s, t, s.tasks[t].wait)
  }

  ghost predicate Objects(s: State) {
    && (forall m: MutexId :: OwnerFits(s.tasks, s.mutexes[m]))
    && (forall i: SemId :: SemFits(s.sems[i]))
    && (forall i: QueueId :: QueueFits(s.queues[i]))
    && (forall t: TaskId :: WaitFits(s, t))
  }

  // ----- Priorities and the running task

  /** Effective priorities are exactly the inherited ones. */
  ghost predicate PrioritiesInherited(s: State) {
    Priorities(s) == Inherited(GraphOf(s))
  }

  /** No ready task outranks the running one, and nothing is ready when nothing runs. */
  ghost predicate Highest(s: State) {
    forall t: TaskId :: s.tasks[t].state == Ready ==> s.current.Some? && s.tasks[t].eff <= s.tasks[s.current.value].eff
  }

  ghost predicate TopRuns(s: State) {
    s.started ==> Highest(s)
  }

  predicate SliceInRange(s: State) {
    s.current.Some? ==> 1 <= s.tasks[s.current.value].slice <= TIME_SLICE_TICKS
  }

  predicate PoolFits(s: State) {
    && s.taskCount <= MAX_TASKS
    && (forall t: TaskId :: s.tasks[t].state == Unused <==> t >= s.taskCount)
    && (!s.started ==> s.current == None)
    && (s.idle.Some? ==> s.idle.value < s.taskCount && IsIdle(s.tasks[s.idle.value]))
    && (forall t: TaskId :: t < s.taskCount && IsIdle(s.tasks[t]) ==> s.idle == Some(t))
  }

  /** Everything except who runs. */
  ghost predicate Settled(s: State) {
    Structure(s, {}) && Objects(s) && PrioritiesInherited(s) && PoolFits(s)
  }

  ghost predicate Inv(s: State) {
    && Settled(s)
    && OneRuns(s.tasks, s.current)
    && (!s.pending ==> TopRuns(s))
    && SliceInRange(s)
  }

  // ----- Changes made by scheduling and inheritance alone

  predicate Runnable(state: TaskState) {
    state == Ready || state == Running
  }

  /** At most the effective priority, the time slice and ready versus running differ. */
  predicate SameJob(a: Task, b: Task) {
    && b == a.(eff := b.eff, state := b.state, slice := b.slice)
    && (b.state == a.state || (Runnable(a.state) && Runnable(b.state)))
    && (!Runnable(a.state) ==> b.slice == a.slice)
  }

  ghost predicate SameJobs(tasks: TaskPool, tasks': TaskPool) {
    forall t: TaskId :: SameJob(tasks[t], tasks'[t])
  }

  ghost predicate Quiet(s: State, r: State) {
    && SameJobs(s.tasks, r.tasks)
    && r == s.(tasks := r.tasks, lists := r.lists, bitmap := r.bitmap, current := r.current,
               nesting := r.nesting, pending := r.pending)
    && SameWaiters(s, r)
  }

  ghost predicate SameEff(s: State, r: State) {
    forall t: TaskId :: r.tasks[t].eff == s.tasks[t].eff
  }

  lemma QuietTrans(a: State, b: State, c: State)
    requires Quiet(a, b) && Quiet(b, c)
    ensures Quiet(a, c)
  {
    forall t: TaskId ensures SameJob(a.tasks[t], c.tasks[t]) {
      assert SameJob(a.tasks[t], b.tasks[t]) && SameJob(b.tasks[t], c.tasks[t]);
    }
  }

  lemma QuietKeepsDelays(s: State, r: State, due: bool)
    requires Quiet(s, r) && Delays(s, due)
    ensures Delays(r, due)
  {
    forall t: TaskId
      ensures r.tasks[t].wakeTick == s.tasks[t].wakeTick && r.tasks[t].delayList == s.tasks[t].delayList {
      assert SameJob(s.tasks[t], r.tasks[t]);
    }
    SameDelaysKeep(s, r, due);
  }

  lemma QuietKeepsObjects(s: State, r: State)
    requires Quiet(s, r) && Objects(s)
    ensures Objects(r)
  {
    forall m: MutexId ensures OwnerFits(r.tasks, r.mutexes[m]) {
      assert OwnerFits(s.tasks, s.mutexes[m]);
      if s.mutexes[m].owner.Some? {
        assert SameJob(s.tasks[s.mutexes[m].owner.value], r.tasks[s.mutexes[m].owner.value]);
      }
    }
    forall t: TaskId ensures WaitFits(r, t) {
      assert WaitFits(s, t) && SameJob(s.tasks[t], r.tasks[t]);
    }
  }

  lemma QuietKeepsGraph(s: State, r: State)
    requires Quiet(s, r)
    ensures GraphOf(r) == GraphOf(s)
  {
    forall t: TaskId ensures r.tasks[t].base == s.tasks[t].base && WaitsFor(r, t) == WaitsFor(s, t) {
      assert SameJob(s.tasks[t], r.tasks[t]);
    }
    assert GraphOf(r).base == GraphOf(s).base;
    assert GraphOf(r).next == GraphOf(s).next;
  }

  /** Quiet changes that also keep all priorities. */
  lemma QuietKeepsPriorities(s: State, r: State)
    requires Quiet(s, r) && PrioritiesInherited(s)
    requires SameEff(s, r)
    ensures PrioritiesInherited(r)
  {
    QuietKeepsGraph(s, r);
    assert Priorities(r) == Priorities(s);
  }

  lemma QuietKeepsPool(s: State, r: State)
    requires Quiet(s, r) && PoolFits(s) && (r.started || r.current == None)
    ensures PoolFits(r)
  {
    forall t: TaskId
      ensures (r.tasks[t].state == Unused <==> s.tasks[t].state == Unused) && r.tasks[t].base == s.tasks[t].base {
      assert SameJob(s.tasks[t], r.tasks[t]);
    }
  }

  lemma QuietKeepsCoherence(s: State, r: State)
    requires Quiet(s, r) && AllCoherent(s.tasks)
    requires forall t: TaskId :: IsIdle(s.tasks[t]) ==> r.tasks[t].eff == s.tasks[t].eff
    ensures AllCoherent(r.tasks)
  {
    forall t: TaskId ensures Coherent(r.tasks[t]) {
      assert Coherent(s.tasks[t]) && SameJob(s.tasks[t], r.tasks[t]);
    }
  }

  /** Scheduling alone keeps everything settled. */
  lemma QuietKeepsSettled(s: State, r: State)
    requires Settled(s) && Quiet(s, r) && SameEff(s, r)
    requires Containers(r, {}) && (r.started || r.current == None)
    ensures Settled(r)
  {
    QuietKeepsDelays(s, r, false);
    QuietKeepsCoherence(s, r);
    QuietKeepsObjects(s, r);
    QuietKeepsPriorities(s, r);
    QuietKeepsPool(s, r);
  }

  /** The objects still fit if pools are unchanged and every new wait fits. */
  lemma ObjectsTransfer(s: State, r: State)
    requires Objects(s) && r.sems == s.sems && r.queues == s.queues && r.mutexes == s.mutexes
    requires forall t: TaskId :: r.tasks[t].base == s.tasks[t].base && (IsAlive(s.tasks[t]) ==> IsAlive(r.tasks[t]))
    requires forall t: TaskId :: r.tasks[t].wait == s.tasks[t].wait || WaitFits(r, t)
    ensures Objects(r)
  {
    forall m: MutexId ensures OwnerFits(r.tasks, r.mutexes[m]) {
      assert OwnerFits(s.tasks, s.mutexes[m]);
    }
    forall t: TaskId ensures WaitFits(r, t) {
      assert WaitFits(s, t);
    }
  }

  lemma PoolTransfer(s: State, r: State)
    requires PoolFits(s) && r.taskCount == s.taskCount && r.started == s.started && r.current == s.current
             && r.idle == s.idle
    requires forall t: TaskId :: r.tasks[t].base == s.tasks[t].base
               && (r.tasks[t].state == Unused <==> s.tasks[t].state == Unused)
    ensures PoolFits(r)
  {
  }
}
