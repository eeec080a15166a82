/** The initial states: os_Init, the create functions and the start of the scheduler. */
module Setup {
  import opened Wrappers
  import opened ReadyBitmap
  import opened KernelState
  import opened Sched
  import opened KernelObjects
  import opened Inheritance
  import opened Placement
  import opened DelayLists
  import opened Invariants
  import opened SchedProofs
  import opened StepProofs

  function Init(): State {
    State(seq(MAX_TASKS, _ => UNUSED_TASK), 0, map[], {}, [[], []], 0, 0, None, 0, false, false, None,
          seq(MAX_SEMAPHORES, _ => Semaphore(false, 0, 0)),
          seq(MAX_QUEUES, _ => Queue(false, [], 0, 0, 0, 0)),
          seq(MAX_MUTEXES, _ => Mutex(false, None)))
  }

  function NewTask(priority: Priority): Task {
    UNUSED_TASK.(base := priority, eff := priority, state := Ready, result := BadState)
  }

  /** Allocates the next TCB; `idle` admits the priority reserved for Idle. */
  function TaskCreate(s: State, priority: nat, idle: bool): State {
    if s.started || priority >= PRIORITY_COUNT || (priority <= IDLE_PRIORITY && !idle) || s.taskCount >= MAX_TASKS
      then s
    else
      ReadyEnqueue(SetTask(s, s.taskCount, NewTask(priority)), s.taskCount).(taskCount := s.taskCount + 1)
  }

  function EnsureIdleTask(s: State): State {
    if s.idle.Some? then s
    else
      var r := TaskCreate(s, IDLE_PRIORITY, true);
      if r.taskCount > s.taskCount then r.(idle := Some(s.taskCount)) else r
  }

  function SemCreate(s: State, i: SemId, maximum: Tick, initial: Tick): State {
    if s.started || maximum == 0 || initial > maximum || s.sems[i].used then s
    else s.(sems := s.sems[i := Semaphore(true, initial, maximum)])
  }

  function QueueCreate(s: State, i: QueueId, storage: seq<Message>): State {
    if s.started || storage == [] || s.queues[i].used then s
    else s.(queues := s.queues[i := Queue(true, storage, |storage|, 0, 0, 0)])
  }

  function MutexCreate(s: State, i: MutexId): State {
    if s.started || s.mutexes[i].used then s else s.(mutexes := s.mutexes[i := Mutex(true, None)])
  }

  lemma InitKeeps()
    ensures Inv(Init())
  {
    var s := Init();
    assert forall l: ListId :: At(s.lists, l) == [];
    assert forall t: TaskId :: s.tasks[t] == UNUSED_TASK;
    assert forall m: MutexId :: s.mutexes[m] == Mutex(false, None);
    assert forall d: DelayIndex :: s.delayed[d] == [];
    forall t: TaskId ensures Priorities(s)[t] == Inherited(GraphOf(s))[t] {
      assert forall u: TaskId :: GraphOf(s).next[u] == None;
      UnwaitedKeepsBase(GraphOf(s), t);
    }
    assert Priorities(s) == Inherited(GraphOf(s));
  }

  /** A task that neither waits nor is waited for can be added without touching the others. */
  lemma IsolatedTask(g: Graph, g': Graph, t: nat)
    requires WellFormed(g) && t < |g.base| && g.next[t] == None && g'.next == g.next
    requires |g'.base| == |g.base| && forall u :: 0 <= u < |g.base| && u != t ==> g'.base[u] == g.base[u]
    requires forall u :: !Edge(g, u, t)
    ensures Inherited(g') == Inherited(g)[t := g'.base[t]]
  {
    forall u | 0 <= u < |g.base| ensures Inherited(g')[u] == Inherited(g)[t := g'.base[t]][u] {
      if u == t {
        forall w ensures !Edge(g', w, t) { assert Edge(g', w, t) ==> Edge(g, w, t); }
        UnwaitedKeepsBase(g', t);
      } else {
        NotAbove(g, g', t, u);
        NotAbove(g', g, t, u);
      }
    }
  }

  lemma NotAbove(g: Graph, g': Graph, t: nat, u: nat)
    requires |g.base| == |g'.base| && g'.next == g.next && u != t && u < |g.base| && t < |g.next| && g.next[t] == None
    requires forall w :: 0 <= w < |g.base| && w != t ==> g'.base[w] == g.base[w]
    ensures Inherited(g)[u] <= Inherited(g')[u]
  {
    var p := AttainingPath(g, u);
    if |p| > 1 { assert Edge(g, p[0], p[1]); }
    forall i | 0 <= i < |p| - 1 ensures Edge(g', p[i], p[i + 1]) { assert Edge(g, p[i], p[i + 1]); }
    PathIsBound(g', p);
  }

  lemma TaskCreateContainers(s: State, priority: Priority)
    requires Inv(s) && s.taskCount < MAX_TASKS
    ensures var r := ReadyEnqueue(SetTask(s, s.taskCount, NewTask(priority)), s.taskCount);
            && Containers(r, {}) && Delays(r, false)
            && r.tasks == s.tasks[s.taskCount := NewTask(priority)]
            && forall k: WaitId :: At(r.lists, WaitList(k)) == At(s.lists, WaitList(k))
  {
    var t: TaskId := s.taskCount;
    HomelessIsFree(s, t, {});
    RetaskKeeps(s, t, NewTask(priority), {t});
    assert {} + {t} == {t} && {t} - {t} == {};
    var s1 := SetTask(s, t, NewTask(priority));
    assert Coherent(s.tasks[t]);
    CreatedDelays(s, s1, t);
    EnqueueKeeps(s1, t, {t});
    SameDelaysKeep(s1, ReadyEnqueue(s1, t), false);
  }

  lemma CreatedDelays(s: State, r: State, t: TaskId)
    requires Delays(s, false) && s.tasks[t] == UNUSED_TASK && r == s.(tasks := s.tasks[t := r.tasks[t]])
    requires r.tasks[t].delayList == None && r.tasks[t].wakeTick == 0
    ensures Delays(r, false)
  {
    SameDelaysKeep(s, r, false);
  }

  lemma TaskCreateStep(s: State, priority: nat)
    requires Inv(s)
    ensures Inv(TaskCreate(s, priority, false))
    ensures Inv(EnsureIdleTask(s))
  {
    if !s.started && s.taskCount < MAX_TASKS {
      if IDLE_PRIORITY < priority < PRIORITY_COUNT {
        CreatedInv(s, priority, TaskCreate(s, priority, false));
      }
      if s.idle == None {
        CreatedInv(s, IDLE_PRIORITY, EnsureIdleTask(s));
      }
    }
  }

  lemma CreatedInv(s: State, priority: Priority, r: State)
    requires Inv(s) && !s.started && s.taskCount < MAX_TASKS
    requires var t: TaskId := s.taskCount;
             && (priority == IDLE_PRIORITY ==> s.idle == None)
             && r == ReadyEnqueue(SetTask(s, t, NewTask(priority)), t)
                     .(taskCount := s.taskCount + 1, idle := if priority == IDLE_PRIORITY then Some(t) else s.idle)
    ensures Inv(r)
  {
    var t: TaskId := s.taskCount;
    TaskCreateContainers(s, priority);
    assert Coherent(s.tasks[t]) && s.tasks[t].state == Unused;
    var e := ReadyEnqueue(SetTask(s, t, NewTask(priority)), t);
    SameHomesKeep(e, r, {});
    SameDelaysKeep(e, r, false);
    forall u: TaskId ensures Coherent(r.tasks[u]) && WaitFits(r, u) && WaitsFor(r, u) == WaitsFor(s, u) {
      assert Coherent(s.tasks[u]) && WaitFits(s, u);
    }
    forall m: MutexId ensures OwnerFits(r.tasks, r.mutexes[m]) { assert OwnerFits(s.tasks, s.mutexes[m]); }
    CreatedPriorities(s, r, t);
  }

  lemma CreatedPriorities(s: State, r: State, t: TaskId)
    requires PrioritiesInherited(s) && Objects(s) && s.tasks[t] == UNUSED_TASK
    requires r.tasks[t].base == r.tasks[t].eff && forall u: TaskId :: u != t ==> r.tasks[u] == s.tasks[u]
    requires forall u: TaskId :: WaitsFor(r, u) == WaitsFor(s, u)
    ensures PrioritiesInherited(r)
  {
    var g, g' := GraphOf(s), GraphOf(r);
    assert g'.next == g.next;
    forall u ensures !Edge(g, u, t) {
      if Edge(g, u, t) { WaitedForIsAlive(s, u, t); }
    }
    IsolatedTask(g, g', t);
    assert Priorities(r) == Priorities(s)[t := g'.base[t]];
  }

  lemma WaitedForIsAlive(s: State, u: TaskId, t: TaskId)
    requires Objects(s) && WaitsFor(s, u) == Some(t)
    ensures IsAlive(s.tasks[t])
  {
    assert OwnerFits(s.tasks, s.mutexes[s.tasks[u].wait.value.mutex]);
  }

  lemma SemCreateStep(s: State, i: SemId, maximum: Tick, initial: Tick)
    requires Inv(s)
    ensures Inv(SemCreate(s, i, maximum, initial))
  {
    var r := SemCreate(s, i, maximum, initial);
    CreatedObject(s, r);
  }

  lemma QueueCreateStep(s: State, k: QueueId, storage: seq<Message>)
    requires Inv(s)
    ensures Inv(QueueCreate(s, k, storage))
  {
    var r := QueueCreate(s, k, storage);
    CreatedObject(s, r);
  }

  lemma MutexCreateStep(s: State, m: MutexId)
    requires Inv(s)
    ensures Inv(MutexCreate(s, m))
  {
    var r := MutexCreate(s, m);
    CreatedObject(s, r);
  }

  lemma CreatedObject(s: State, r: State)
    requires Inv(s) && r == s.(sems := r.sems, queues := r.queues, mutexes := r.mutexes)
    requires forall i: SemId :: r.sems[i] == s.sems[i] || (!s.sems[i].used && SemFits(r.sems[i]))
    requires forall i: QueueId :: r.queues[i] == s.queues[i] || (!s.queues[i].used && QueueFits(r.queues[i]))
    requires forall i: MutexId :: r.mutexes[i] == s.mutexes[i] || (!s.mutexes[i].used && r.mutexes[i].owner == None)
    ensures Inv(r)
  {
    forall i: SemId ensures SemFits(r.sems[i]) { assert SemFits(s.sems[i]); }
    forall i: QueueId ensures QueueFits(r.queues[i]) { assert QueueFits(s.queues[i]); }
    forall m: MutexId ensures OwnerFits(r.tasks, r.mutexes[m]) { assert OwnerFits(s.tasks, s.mutexes[m]); }
    forall t: TaskId ensures WaitFits(r, t) && WaitsFor(r, t) == WaitsFor(s, t) {
      assert WaitFits(s, t);
      match s.tasks[t].wait
      case Some(MutexList(m)) => assert OwnerFits(s.tasks, s.mutexes[m]);
      case _ =>
    }
    assert SameButResults(s.tasks, r.tasks);
    ObjectStep(s, r);
  }

  lemma MarkStarted(s: State)
    requires Settled(s)
    ensures Settled(s.(started := true))
  {
    var r := s.(started := true);
    forall t: TaskId ensures WaitFits(r, t) && WaitsFor(r, t) == WaitsFor(s, t) { assert WaitFits(s, t); }
    SameGraph(s, r);
  }

  lemma StartUnfolds(s: State)
    requires !s.started && Containers(s, {})
    ensures var next := PopHighest(s).1;
            SchedStart(s) == if next == None then s else PickNext(s.(started := true))
  {
    PopHighestKeeps(s);
  }

  lemma StartStep(s: State)
    requires Inv(s)
    ensures Inv(SchedStart(s))
    ensures SchedStart(s).started ==> s.started || SchedStart(s).current.Some?
  {
    if !s.started {
      StartUnfolds(s);
      MarkStarted(s);
      var s1 := s.(started := true);
      PickNextKeeps(s1);
      QuietKeepsSettled(s1, PickNext(s1));
    }
  }
}
