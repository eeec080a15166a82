/** The kernel as one state machine, and what holds in all of its runs. */
module Machine {
  import opened Wrappers
  import opened KernelState
  import opened Sched
  import opened KernelObjects
  import opened Time
  import opened Inheritance
  import opened Invariants
  import opened StepProofs
  import opened ObjectProofs
  import opened MutexProofs
  import opened TickProofs
  import opened Setup

  datatype Op =
    | CreateTask(priority: nat)
    | EnsureIdle
    | CreateSem(sem: SemId, maximum: Tick, initial: Tick)
    | CreateQueue(queue: QueueId, storage: seq<Message>)
    | CreateMutex(mutex: MutexId)
    | Start
    | Yield
    | Delay(ticks: Tick)
    | Take(semaphore: Option<SemId>, timeout: Tick)
    | Give(semaphore: Option<SemId>)
    | GiveIsr(semaphore: Option<SemId>)
    | Send(target: Option<QueueId>, item: Option<Message>, timeout: Tick)
    | Receive(target: Option<QueueId>, out: bool, timeout: Tick)
    | Lock(lock: Option<MutexId>, timeout: Tick)
    | Unlock(lock: Option<MutexId>)
    | Exit
    | Tick
    | Enter
    | Leave

  ghost function Next(s: State, op: Op): State {
    match op
    case CreateTask(p) => TaskCreate(s, p, false)
    case EnsureIdle => EnsureIdleTask(s)
    case CreateSem(i, maximum, initial) => SemCreate(s, i, maximum, initial)
    case CreateQueue(i, storage) => QueueCreate(s, i, storage)
    case CreateMutex(i) => MutexCreate(s, i)
    case Start => SchedStart(s)
    case Yield => YieldCurrent(s)
    case Delay(n) => DelayCurrent(s, n)
    case Take(i, timeout) => TakeCurrent(s, i, timeout)
    case Give(i) => GiveCurrent(s, i)
    case GiveIsr(i) => GiveFromIsr(s, i)
    case Send(i, item, timeout) => SendCurrent(s, i, item, timeout)
    case Receive(i, out, timeout) => ReceiveCurrent(s, i, out, timeout)
    case Lock(m, timeout) => LockCurrent(s, m, timeout)
    case Unlock(m) => UnlockCurrent(s, m)
    case Exit => TerminateCurrent(s)
    case Tick => TimeTick(s)
    case Enter => EnterCritical(s)
    case Leave => ExitCritical(s)
  }

  /** The one rule callers obey: the Idle task, which only yields, never locks a mutex. */
  predicate Allowed(s: State, op: Op) {
    op.Lock? && s.current.Some? ==> !IsIdle(s.tasks[s.current.value])
  }

  ghost predicate AllowedRun(s: State, ops: seq<Op>)
    decreases |ops|
  {
    ops == [] || (Allowed(s, ops[0]) && AllowedRun(Next(s, ops[0]), ops[1..]))
  }

  ghost function Run(s: State, ops: seq<Op>): State
    decreases |ops|
  {
    if ops == [] then s else Run(Next(s, ops[0]), ops[1..])
  }

  lemma SetupKeeps(s: State, op: Op)
    requires Inv(s)
             && (op.CreateTask? || op.EnsureIdle? || op.CreateSem? || op.CreateQueue? || op.CreateMutex? || op.Start?)
    ensures Inv(Next(s, op))
  {
    match op
    case CreateTask(p) => TaskCreateStep(s, p);
    case EnsureIdle => TaskCreateStep(s, 0);
    case CreateSem(i, maximum, initial) => SemCreateStep(s, i, maximum, initial);
    case CreateQueue(i, storage) => QueueCreateStep(s, i, storage);
    case CreateMutex(i) => MutexCreateStep(s, i);
    case Start => StartStep(s);
  }

  lemma NextKeeps(s: State, op: Op)
    requires Inv(s) && Allowed(s, op)
    ensures Inv(Next(s, op))
  {
    match op
    case Yield => YieldStep(s);
    case Give(i) => GiveStep(s, i);
    case GiveIsr(i) => GiveFromIsrStep(s, i);
    case Unlock(m) => UnlockStep(s, m);
    case Exit => TerminateStep(s);
    case Tick => TickStep(s);
    case Enter => EnterStep(s);
    case Leave => ExitStep(s);
    case _ => if MaySleep(op) { SleepingCallKeeps(s, op); } else { SetupKeeps(s, op); }
  }

  /** The calls that can put the running task to sleep. */
  ghost predicate MaySleep(op: Op) {
    op.Delay? || op.Take? || op.Send? || op.Receive? || op.Lock?
  }

  lemma SleepingCallKeeps(s: State, op: Op)
    requires Inv(s) && Allowed(s, op) && MaySleep(op)
    ensures Inv(Next(s, op))
  {
    match op
    case Delay(n) => DelayStep(s, n);
    case Take(i, timeout) => TakeStep(s, i, timeout);
    case Send(i, item, timeout) => SendStep(s, i, item, timeout);
    case Receive(i, out, timeout) => ReceiveStep(s, i, out, timeout);
    case Lock(m, timeout) => LockStep(s, m, timeout);
  }

  lemma {:induction false} RunKeeps(s: State, ops: seq<Op>)
    requires Inv(s) && AllowedRun(s, ops)
    ensures Inv(Run(s, ops))
    decreases |ops|
  {
    if ops != [] {
      NextKeeps(s, ops[0]);
      RunKeeps(Next(s, ops[0]), ops[1..]);
    }
  }

  /** A state the kernel can get into. */
  ghost predicate Reachable(s: State) {
    exists ops: seq<Op> :: AllowedRun(Init(), ops) && s == Run(Init(), ops)
  }

  lemma ReachableInv(s: State)
    requires Reachable(s)
    ensures Inv(s)
  {
    InitKeeps();
    var ops: seq<Op> :| AllowedRun(Init(), ops) && s == Run(Init(), ops);
    RunKeeps(Init(), ops);
  }

  // ----- Scheduling

  /** In every reachable state after start, unless a switch is pending in a critical
      section, no ready task outranks the running one, and nothing is ready while
      nothing runs. */
  lemma HighestPriorityRuns(s: State)
    requires Reachable(s) && s.started && !s.pending
    ensures forall t: TaskId :: s.tasks[t].state == Ready ==>
                                  s.current.Some? && s.tasks[t].eff <= s.tasks[s.current.value].eff
    ensures forall t: TaskId :: s.tasks[t].state == Running <==> s.current == Some(t)
  {
    ReachableInv(s);
  }

  lemma SliceAlwaysInRange(s: State)
    requires Reachable(s) && s.current.Some?
    ensures 1 <= s.tasks[s.current.value].slice <= TIME_SLICE_TICKS
  {
    ReachableInv(s);
  }

  // ----- Priority inheritance

  /** p[0] waits on a mutex of p[1], which waits on a mutex of p[2], and so on. */
  ghost predicate WaitingChain(s: State, p: seq<TaskId>) {
    |p| > 0 && forall i :: 0 <= i < |p| - 1 ==> WaitsFor(s, p[i]) == Some(p[i + 1])
  }

  lemma ChainIsPath(s: State, p: seq<TaskId>)
    requires WaitingChain(s, p)
    ensures Path(GraphOf(s), p)
  {
    forall i | 0 <= i < |p| - 1 ensures Edge(GraphOf(s), p[i], p[i + 1]) {
      assert WaitsFor(s, p[i]) == Some(p[i + 1]);
    }
  }

  lemma PathIsChain(s: State, p: seq<nat>) returns (q: seq<TaskId>)
    requires Path(GraphOf(s), p)
    ensures WaitingChain(s, q) && |q| == |p| && forall i :: 0 <= i < |p| ==> q[i] == p[i]
  {
    q := seq(|p|, i requires 0 <= i < |p| => p[i]);
    forall i | 0 <= i < |q| - 1 ensures WaitsFor(s, q[i]) == Some(q[i + 1]) {
      assert Edge(GraphOf(s), p[i], p[i + 1]);
    }
  }

  /** The effective priority of every task is the maximum of the base priorities over
      itself and all tasks that transitively wait on mutexes it owns. */
  lemma PriorityIsInheritedMaximum(s: State, t: TaskId)
    requires Reachable(s)
    ensures forall p :: WaitingChain(s, p) && p[|p| - 1] == t ==> s.tasks[p[0]].base <= s.tasks[t].eff
    ensures exists p :: WaitingChain(s, p) && p[|p| - 1] == t && s.tasks[p[0]].base == s.tasks[t].eff
  {
    ReachableInv(s);
    var g := GraphOf(s);
    assert Priorities(s)[t] == s.tasks[t].eff;
    forall p: seq<TaskId> | WaitingChain(s, p) && p[|p| - 1] == t ensures s.tasks[p[0]].base <= s.tasks[t].eff {
      ChainIsPath(s, p);
      PathIsBound(g, p);
      assert g.base[p[0]] == s.tasks[p[0]].base;
    }
    var q := AttainingPath(g, t);
    var p := PathIsChain(s, q);
    assert g.base[p[0]] == s.tasks[p[0]].base;
    assert WaitingChain(s, p) && p[|p| - 1] == t && s.tasks[p[0]].base == s.tasks[t].eff;
  }

  /** Bounded priority inversion: if the chain of owners that t waits for ends in a task
      that could run, then what runs has at least the priority of t. */
  lemma NoUnboundedInversion(s: State, p: seq<TaskId>)
    requires Reachable(s) && s.started && !s.pending && WaitingChain(s, p)
    requires Runnable(s.tasks[p[|p| - 1]].state)
    ensures s.current.Some? && s.tasks[s.current.value].eff >= s.tasks[p[0]].eff
  {
    ReachableInv(s);
    EffAlongChain(s, p);
    var o := p[|p| - 1];
    assert s.tasks[o].state == Ready || s.current == Some(o);
  }

  lemma {:induction false} EffAlongChain(s: State, p: seq<TaskId>)
    requires PrioritiesInherited(s) && WaitingChain(s, p)
    ensures s.tasks[p[0]].eff <= s.tasks[p[|p| - 1]].eff
    decreases |p|
  {
    if |p| > 1 {
      EffAlongChain(s, p[1..]);
      var g := GraphOf(s);
      InheritedIsClosed(g);
      assert WaitsFor(s, p[0]) == Some(p[1]);
      assert Edge(g, p[0], p[1]);
      assert Priorities(s)[p[0]] == s.tasks[p[0]].eff && Priorities(s)[p[1]] == s.tasks[p[1]].eff;
    }
  }
}
