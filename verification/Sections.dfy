/** A switch is pending only inside a kernel critical section. */
module Sections {
  import opened Wrappers
  import opened KernelState
  import opened Sched
  import opened KernelObjects
  import opened Time
  import opened Setup
  import opened Machine

  /** The nesting depth is as before, and a switch was postponed only inside a section. */
  ghost predicate SameSection(s: State, r: State) {
    r.nesting == s.nesting && (r.pending ==> s.pending || s.nesting > 0)
  }

  ghost predicate PendingInside(s: State) {
    s.pending ==> s.nesting > 0
  }

  /** The nesting counter is not at its 32-bit limit when the step enters a section. */
  predicate CanEnter(s: State, op: Op) {
    op.Enter? || op.GiveIsr? ==> s.nesting < TICK_MODULUS - 1
  }

  lemma ScheduleSection(s: State, rotate: bool)
    ensures Schedule(s, rotate).nesting == s.nesting && Schedule(s, rotate).pending == s.pending
  {
  }

  lemma PreemptSection(s: State, w: TaskId)
    ensures SameSection(s, MaybePreempt(s, w))
  {
    ScheduleSection(s, false);
  }

  lemma MakeReadySection(s: State, t: TaskId, result: Status)
    ensures MakeReady(s, t, result).nesting == s.nesting && MakeReady(s, t, result).pending == s.pending
  {
  }

  lemma ServeSection(s: State, w: TaskId)
    ensures SameSection(s, Serve(s, w))
  {
    MakeReadySection(s, w, Status.Ok);
    PreemptSection(MakeReady(s, w, Status.Ok), w);
  }

  lemma ParkSection(s: State, c: TaskId, l: WaitId, cell: Message, n: Tick)
    ensures Park(s, c, l, cell, n).nesting == s.nesting && Park(s, c, l, cell, n).pending == s.pending
  {
  }

  lemma WaitBlockSection(s: State, l: WaitId, cell: Message, timeout: Tick)
    ensures WaitBlock(s, l, cell, timeout).nesting == s.nesting && WaitBlock(s, l, cell, timeout).pending == s.pending
  {
    if CurrentRuns(s) {
      ParkSection(s, s.current.value, l, cell, ClampTimeout(timeout));
      PickNextSection(Park(s, s.current.value, l, cell, ClampTimeout(timeout)));
    }
  }

  lemma GiveAnySection(s: State, i: Option<SemId>)
    ensures GiveAny(s, i).0.nesting == s.nesting && GiveAny(s, i).0.pending == s.pending
  {
    if SemIsValid(s, i) {
      var (s1, w) := WaitPop(s, SemList(i.value));
      if w.Some? { MakeReadySection(s1, w.value, Status.Ok); }
    }
  }

  lemma GiveSection(s: State, i: Option<SemId>)
    ensures SameSection(s, GiveCurrent(s, i))
  {
    GiveAnySection(s, i);
    if CurrentRuns(s) && GiveAny(s, i).2.Some? {
      PreemptSection(SetResult(GiveAny(s, i).0, s.current.value, GiveAny(s, i).1), GiveAny(s, i).2.value);
    }
  }

  lemma LeaveSection(s: State)
    ensures PendingInside(s) ==> PendingInside(ExitCritical(s))
  {
    if s.nesting == 1 && s.pending { ScheduleSection(s.(nesting := 0, pending := false), false); }
  }

  lemma GiveIsrSection(s: State, i: Option<SemId>)
    requires PendingInside(s) && s.nesting < TICK_MODULUS - 1
    ensures PendingInside(GiveFromIsr(s, i))
  {
    var s0 := EnterCritical(s);
    GiveAnySection(s0, i);
    var (s1, _, w) := GiveAny(s0, i);
    if w.Some? { PreemptSection(s1, w.value); }
    LeaveSection(if w.Some? then MaybePreempt(s1, w.value) else s1);
  }

  lemma SendSection(s: State, i: Option<QueueId>, item: Option<Message>, timeout: Tick)
    ensures SameSection(s, SendCurrent(s, i, item, timeout))
  {
    if CurrentRuns(s) && QueueIsValid(s, i) && item.Some? {
      var (s1, w) := WaitPop(s, ReceiveList(i.value));
      if w.Some? {
        ServeSection(SetResult(SetCell(s1, w.value, item.value), s.current.value, Status.Ok), w.value);
      } else {
        WaitBlockSection(s, SendList(i.value), item.value, timeout);
      }
    }
  }

  lemma ReceiveSection(s: State, i: Option<QueueId>, out: bool, timeout: Tick)
    ensures SameSection(s, ReceiveCurrent(s, i, out, timeout))
  {
    if CurrentRuns(s) && QueueIsValid(s, i) && out {
      var c, q := s.current.value, s.queues[i.value];
      if q.count > 0 {
        var (s2, w) := WaitPop(SetQueue(SetCell(s, c, q.buffer[q.head]), i.value, RingDrop(q)), SendList(i.value));
        if w.Some? {
          var s3 := SetQueue(s2, i.value, RingPut(RingDrop(q), s2.tasks[w.value].cell));
          ServeSection(SetResult(s3, c, Status.Ok), w.value);
        }
      } else {
        WaitBlockSection(s, ReceiveList(i.value), s.tasks[c].cell, timeout);
      }
    }
  }

  lemma LockSection(s: State, m: Option<MutexId>, timeout: Tick)
    ensures SameSection(s, LockCurrent(s, m, timeout))
  {
    if CurrentRuns(s) && MutexIsValid(s, m) && s.mutexes[m.value].owner.Some? && s.mutexes[m.value].owner != s.current
      && timeout != 0 {
      var s2 := WaitBlock(s, MutexList(m.value), s.tasks[s.current.value].cell, timeout);
      WaitBlockSection(s, MutexList(m.value), s.tasks[s.current.value].cell, timeout);
      ScheduleSection(WaitersChanged(s2), false);
    }
  }

  lemma UnlockSection(s: State, m: Option<MutexId>)
    ensures SameSection(s, UnlockCurrent(s, m))
  {
    if CurrentRuns(s) && MutexIsValid(s, m) && s.mutexes[m.value].owner == s.current {
      var (s1, w) := PassOn(s, m.value);
      var s2 := WaitersChanged(SetResult(s1, s.current.value, Status.Ok));
      if w.Some? { ServeSection(s2, w.value); }
    }
  }

  lemma {:induction false} ReleaseFromSection(s: State, t: TaskId, k: nat)
    ensures ReleaseFrom(s, t, k).nesting == s.nesting && ReleaseFrom(s, t, k).pending == s.pending
    decreases MAX_MUTEXES - k
  {
    if k < MAX_MUTEXES {
      var (s1, w) := PassOn(s, k);
      if w.Some? { MakeReadySection(s1, w.value, Status.Ok); }
      ReleaseFromSection(ReleaseOne(s, t, k), t, k + 1);
    }
  }

  lemma ExitSection(s: State)
    ensures SameSection(s, TerminateCurrent(s))
  {
    if CurrentRuns(s) {
      var c := s.current.value;
      ReleaseFromSection(s, c, 0);
      var s1 := ReleaseTask(s, c);
      PickNextSection(SetTask(s1, c, s1.tasks[c].(state := Terminated)));
    }
  }

  lemma {:induction false} ExpireLoopSection(s: State, woke: bool)
    ensures ExpireLoop(s, woke).0.nesting == s.nesting && ExpireLoop(s, woke).0.pending == s.pending
    decreases |s.delayed[s.px]|
  {
    if HeadIsDue(s) {
      ExpireHeadSection(s);
      var s1 := ExpireHead(s);
      ExpireLoopSection(s1, woke || Outranks(s1, s.delayed[s.px][0]));
    }
  }

  lemma ExpireHeadSection(s: State)
    requires s.delayed[s.px] != []
    ensures ExpireHead(s).nesting == s.nesting && ExpireHead(s).pending == s.pending
  {
    var t := s.delayed[s.px][0];
    MakeReadySection(LeaveWaitList(PopDelayed(s), t), t, Timeout);
  }

  lemma TickSection(s: State)
    ensures SameSection(s, TimeTick(s))
  {
    var (s1, woke) := ExpireLoop(AdvanceClock(s), false);
    ExpireLoopSection(AdvanceClock(s), false);
    EndTickSection(SpendSlice(s1), woke);
  }

  lemma EndTickSection(s: State, woke: bool)
    ensures EndTick(s, woke).nesting == s.nesting && EndTick(s, woke).pending == s.pending
  {
    ScheduleSection(s, false);
    ScheduleSection(s, true);
  }

  lemma PendingStep(s: State, op: Op)
    requires PendingInside(s) && CanEnter(s, op)
    ensures PendingInside(Next(s, op))
  {
    match op
    case Give(i) => GiveSection(s, i);
    case GiveIsr(i) => GiveIsrSection(s, i);
    case Take(i, timeout) =>
      if CurrentRuns(s) && SemIsValid(s, i) {
        WaitBlockSection(s, SemList(i.value), s.tasks[s.current.value].cell, timeout);
      }
    case Send(i, item, timeout) => SendSection(s, i, item, timeout);
    case Receive(i, out, timeout) => ReceiveSection(s, i, out, timeout);
    case Lock(m, timeout) => LockSection(s, m, timeout);
    case Unlock(m) => UnlockSection(s, m);
    case Exit => ExitSection(s);
    case Tick => TickSection(s);
    case Leave => LeaveSection(s);
    case _ => PlainSection(s, op);
  }

  lemma PlainSection(s: State, op: Op)
    requires PendingInside(s) && CanEnter(s, op)
    requires op.Enter? || op.Delay? || op.Yield? || op.Start? || op.CreateTask? || op.EnsureIdle?
             || op.CreateSem? || op.CreateQueue? || op.CreateMutex?
    ensures PendingInside(Next(s, op))
  {
    match op
    case Delay(n) => DelaySection(s, n);
    case Yield => if CurrentRuns(s) { PickNextSection(Requeue(s, s.current.value)); }
    case _ =>
  }

  lemma PickNextSection(s: State)
    ensures PickNext(s).nesting == s.nesting && PickNext(s).pending == s.pending
  {
  }

  lemma DelaySection(s: State, n: Tick)
    ensures SameSection(s, DelayCurrent(s, n))
  {
    if CurrentRuns(s) {
      PickNextSection(Requeue(s, s.current.value));
      PickNextSection(Sleep(s, s.current.value, ClampDelay(n)));
    }
  }

  /** No step of the run enters a section at the limit of the nesting counter. */
  ghost predicate BoundedRun(s: State, ops: seq<Op>)
    decreases |ops|
  {
    ops == [] || (CanEnter(s, ops[0]) && BoundedRun(Next(s, ops[0]), ops[1..]))
  }

  lemma {:induction false} PendingOnlyInside(s: State, ops: seq<Op>)
    requires PendingInside(s) && BoundedRun(s, ops)
    ensures PendingInside(Run(s, ops))
    decreases |ops|
  {
    if ops != [] {
      PendingStep(s, ops[0]);
      PendingOnlyInside(Next(s, ops[0]), ops[1..]);
    }
  }

  /** Outside critical sections a highest-priority task runs, whatever happened before. */
  lemma HighestRunsOutside(ops: seq<Op>, s: State)
    requires AllowedRun(Init(), ops) && BoundedRun(Init(), ops) && s == Run(Init(), ops)
    requires s.started && s.nesting == 0
    ensures !s.pending
    ensures forall t: TaskId :: s.tasks[t].state == Ready
              ==> s.current.Some? && s.tasks[t].eff <= s.tasks[s.current.value].eff
  {
    PendingOnlyInside(Init(), ops);
    HighestPriorityRuns(s);
  }

  /** At the limit the counter wraps: the condition can not be dropped. */
  lemma EnteringAtTheLimit(s: State)
    requires s.pending
    ensures PendingInside(Next(s, Op.Enter)) <==> CanEnter(s, Op.Enter)
  {
  }

  /** Entering and leaving count, down to 0 and up to the limit of the counter. */
  lemma NestingCounts(s: State)
    ensures CanEnter(s, Op.Enter) ==> Next(s, Op.Enter) == s.(nesting := s.nesting + 1)
    ensures s.nesting > 1 ==> Next(s, Op.Leave) == s.(nesting := s.nesting - 1)
    ensures s.nesting == 0 ==> Next(s, Op.Leave) == s
  {
  }

  /** Outside a postponed switch, leaving undoes entering exactly below the limit of the counter. */
  lemma LeaveUndoesEnter(s: State)
    requires PendingInside(s)
    ensures Next(Next(s, Op.Enter), Op.Leave) == s <==> CanEnter(s, Op.Enter)
  {
    NestingCounts(s);
    if CanEnter(s, Op.Enter) { EnteredLeaves(s, s.(nesting := s.nesting + 1)); }
  }

  lemma EnteredLeaves(s: State, s1: State)
    requires PendingInside(s) && s.nesting < TICK_MODULUS - 1 && s1 == s.(nesting := s.nesting + 1)
    ensures ExitCritical(s1) == s
  {
  }
}
