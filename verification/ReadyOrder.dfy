/** Ready tasks of one priority are served first come, first served, with one exact exception. */
module ReadyOrder {
  import opened Wrappers
  import opened ReadyBitmap
  import opened KernelState
  import opened TaskLists
  import opened Sched
  import opened KernelObjects
  import opened Time
  import opened Inheritance
  import opened Placement
  import opened DelayLists
  import opened Invariants
  import opened SchedProofs
  import opened BlockProofs
  import opened StepProofs
  import opened ObjectProofs
  import opened MutexProofs
  import opened TickProofs
  import opened Setup
  import opened Machine
  import opened Effects
  import opened Replies
  import opened Sections
  import opened WaitOrder
  import opened WakeOrder
  import opened Turns

  // ----- Operations that keep the order of two ready tasks

  lemma SameLinesPair(s: State, r: State, a: TaskId, b: TaskId)
    requires ReadyBefore(s, a, b) && SamePair(s, r, a, b)
    requires forall p: Priority :: At(r.lists, ReadyList(p)) == At(s.lists, ReadyList(p))
    ensures ReadyBefore(r, a, b)
  {
  }

  lemma MakeReadyPair(s: State, t: TaskId, result: Status, a: TaskId, b: TaskId)
    requires ReadyBefore(s, a, b)
    ensures ReadyBefore(MakeReady(s, t, result), a, b)
  {
    var s1 := DelayRemove(s, t);
    EnqueuePair(SetTask(s1, t, Woken(s1.tasks[t], result)), t, a, b);
  }

  lemma PreemptPair(s: State, w: TaskId, a: TaskId, b: TaskId)
    requires ReadyBefore(s, a, b) && (s.current.Some? ==> s.tasks[s.current.value].state == Running)
    requires s.current != Some(a) && s.current != Some(b)
    ensures FirstServed(MaybePreempt(s, w), a, b)
    ensures s.nesting > 0 ==> MaybePreempt(s, w) == s.(pending := MaybePreempt(s, w).pending)
  {
    SchedulePair(s, false, a, b);
  }

  lemma LeavePair(s: State, a: TaskId, b: TaskId)
    requires ReadyBefore(s, a, b) && (s.current.Some? ==> s.tasks[s.current.value].state == Running)
    requires s.current != Some(a) && s.current != Some(b)
    ensures FirstServed(ExitCritical(s), a, b)
  {
    CriticalUnfolds(s);
    if s.nesting == 1 && s.pending { SchedulePair(s.(nesting := 0, pending := false), false, a, b); }
  }

  /** a and b are ready, and a stands before b. */
  ghost predicate Lined(s: State, a: TaskId, b: TaskId) {
    ReadyBefore(s, a, b) && s.tasks[a].state == Ready && s.tasks[b].state == Ready
  }

  lemma ReadyBeforeIsLined(s: State, a: TaskId, b: TaskId)
    requires Inv(s) && ReadyBefore(s, a, b)
    ensures Lined(s, a, b) && s.current != Some(a) && s.current != Some(b) && a != b
  {
    var q := At(s.lists, ReadyList(s.tasks[a].eff));
    var i, j :| 0 <= i < j < |q| && q[i] == a && q[j] == b;
    assert q[i] in q && q[j] in q && NoDuplicates(q);
  }

  // ----- Calls

  lemma YieldPair(s: State, c: TaskId, a: TaskId, b: TaskId)
    requires ReadyBefore(s, a, b)
    ensures FirstServed(PickNext(Requeue(s, c)), a, b)
  {
    EnqueuePair(SetTask(s, c, s.tasks[c].(state := Ready)), c, a, b);
    PickPair(Requeue(s, c), a, b);
  }

  lemma DelayPair(s: State, n: Tick, a: TaskId, b: TaskId)
    requires Inv(s) && s.current.Some? && ReadyBefore(s, a, b) && n > 0
    ensures FirstServed(DelayCurrent(s, n), a, b)
  {
    DelayUnfolds(s, n);
    var s1 := Sleep(s, s.current.value, ClampDelay(n));
    SameLinesPair(s, s1, a, b);
    PickPair(s1, a, b);
  }

  lemma BlockPair(s: State, l: WaitId, cell: Message, timeout: Tick, a: TaskId, b: TaskId)
    requires Inv(s) && s.current.Some? && ReadyBefore(s, a, b) && timeout != 0
    ensures FirstServed(WaitBlock(s, l, cell, timeout), a, b)
  {
    var s1 := Park(s, s.current.value, l, cell, ClampTimeout(timeout));
    assert WaitBlock(s, l, cell, timeout) == PickNext(s1) by { WaitBlockUnfolds(s, l, cell, timeout); }
    ParkPair(s, s.current.value, l, cell, ClampTimeout(timeout), a, b);
    PickPair(s1, a, b);
  }

  lemma ParkPair(s: State, c: TaskId, l: WaitId, cell: Message, n: Tick, a: TaskId, b: TaskId)
    requires ReadyBefore(s, a, b)
    ensures ReadyBefore(Park(s, c, l, cell, n), a, b)
  {
    SameLinesPair(s, Park(s, c, l, cell, n), a, b);
  }

  lemma TakePair(s: State, i: Option<SemId>, timeout: Tick, a: TaskId, b: TaskId)
    requires Inv(s) && s.current.Some? && ReadyBefore(s, a, b)
    ensures FirstServed(TakeCurrent(s, i, timeout), a, b)
  {
    if SemIsValid(s, i) && s.sems[i.value].count == 0 && timeout != 0 {
      BlockPair(s, SemList(i.value), s.tasks[s.current.value].cell, timeout, a, b);
    }
  }

  /** What a serving call does before it lets the woken task preempt. */
  lemma ServedPair(s: State, l: WaitId, s1: State, w: TaskId, a: TaskId, b: TaskId)
    requires ReadyBefore(s, a, b) && SamePair(s, s1, a, b)
    requires forall p: Priority :: At(s1.lists, ReadyList(p)) == At(s.lists, ReadyList(p))
    ensures ReadyBefore(MakeReady(s1, w, Status.Ok), a, b)
  {
    SameLinesPair(s, s1, a, b);
    MakeReadyPair(s1, w, Status.Ok, a, b);
  }

  lemma WakingLeavesRunning(s: State, t: TaskId, result: Status, c: TaskId)
    requires s.tasks[c].state == Running
    ensures MakeReady(s, t, result).tasks[c].state == Running && MakeReady(s, t, result).current == s.current
  {
  }

  /** The task w, taken off list l, is woken and may preempt. */
  lemma ServePair(s: State, s1: State, w: TaskId, a: TaskId, b: TaskId)
    requires s.current.Some? && s.current != Some(a) && s.current != Some(b) && s1.current == s.current
    requires s1.tasks[s.current.value].state == Running && ReadyBefore(s, a, b) && SamePair(s, s1, a, b)
    requires forall p: Priority :: At(s1.lists, ReadyList(p)) == At(s.lists, ReadyList(p))
    ensures FirstServed(Serve(s1, w), a, b)
  {
    SameLinesPair(s, s1, a, b);
    MakeReadyPair(s1, w, Status.Ok, a, b);
    WakingLeavesRunning(s1, w, Status.Ok, s.current.value);
    PreemptPair(MakeReady(s1, w, Status.Ok), w, a, b);
  }

  lemma GiveAnyPair(s: State, i: Option<SemId>, a: TaskId, b: TaskId)
    requires ReadyBefore(s, a, b)
    ensures ReadyBefore(GiveAny(s, i).0, a, b) && GiveAny(s, i).0.current == s.current
    ensures s.current.Some? && s.tasks[s.current.value].state == Running ==>
              GiveAny(s, i).0.tasks[s.current.value].state == Running
  {
    if SemIsValid(s, i) {
      var (s1, w) := WaitPop(s, SemList(i.value));
      if w.Some? {
        SameLinesPair(s, s1, a, b);
        MakeReadyPair(s1, w.value, Status.Ok, a, b);
      }
    }
  }

  lemma GivePair(s: State, i: Option<SemId>, a: TaskId, b: TaskId)
    requires CurrentRuns(s) && ReadyBefore(s, a, b) && s.current != Some(a) && s.current != Some(b)
    ensures FirstServed(GiveCurrent(s, i), a, b)
  {
    GiveAnyPair(s, i, a, b);
    var (s1, status, w) := GiveAny(s, i);
    var s2 := SetResult(s1, s.current.value, status);
    SameLinesPair(s1, s2, a, b);
    if w.Some? { PreemptPair(s2, w.value, a, b); }
  }

  lemma GiveIsrPair(s: State, i: Option<SemId>, a: TaskId, b: TaskId)
    requires ReadyBefore(s, a, b) && s.current != Some(a) && s.current != Some(b)
    requires s.current.Some? ==> s.tasks[s.current.value].state == Running
    ensures FirstServed(GiveFromIsr(s, i), a, b)
  {
    var s0 := EnterCritical(s);
    SameLinesPair(s, s0, a, b);
    GiveAnyPair(s0, i, a, b);
    IsrTailPair(GiveAny(s0, i).0, GiveAny(s0, i).2, a, b);
  }

  lemma IsrTailPair(m: State, w: Option<TaskId>, a: TaskId, b: TaskId)
    requires ReadyBefore(m, a, b) && m.current != Some(a) && m.current != Some(b)
    requires m.current.Some? ==> m.tasks[m.current.value].state == Running
    ensures FirstServed(ExitCritical(if w.Some? then MaybePreempt(m, w.value) else m), a, b)
  {
    if w == None {
      LeavePair(m, a, b);
    } else {
      var m1 := MaybePreempt(m, w.value);
      PreemptPair(m, w.value, a, b);
      if m.nesting > 0 { LeavePair(m1, a, b); } else { PreemptSection(m, w.value); }
    }
  }

  lemma SendPair(s: State, i: QueueId, item: Message, timeout: Tick, a: TaskId, b: TaskId)
    requires Inv(s) && CurrentRuns(s) && QueueIsValid(s, Some(i)) && ReadyBefore(s, a, b)
    ensures FirstServed(SendCurrent(s, Some(i), Some(item), timeout), a, b)
  {
    ReadyBeforeIsLined(s, a, b);
    SendUnfolds(s, i, item, timeout);
    if WaitPop(s, ReceiveList(i)).1.Some? {
      FrontWaits(s, ReceiveList(i));
      DeliveryPair(s, i, item, a, b);
    } else if s.queues[i].count == s.queues[i].capacity && timeout != 0 {
      BlockPair(s, SendList(i), item, timeout, a, b);
    }
  }

  lemma DeliveryPair(s: State, i: QueueId, item: Message, a: TaskId, b: TaskId)
    requires CurrentRuns(s) && WaitPop(s, ReceiveList(i)).1.Some? && ReadyBefore(s, a, b)
    requires s.current != Some(a) && s.current != Some(b)
    requires s.tasks[WaitPop(s, ReceiveList(i)).1.value].state == BlockedObject
    ensures FirstServed(Serve(Delivery(s, i, item), WaitPop(s, ReceiveList(i)).1.value), a, b)
  {
    ServePair(s, Delivery(s, i, item), WaitPop(s, ReceiveList(i)).1.value, a, b);
  }

  lemma RefillPair(s: State, i: QueueId, a: TaskId, b: TaskId)
    requires CurrentRuns(s) && QueueIsValid(s, Some(i)) && s.queues[i].count > 0 && WaitPop(s, SendList(i)).1.Some?
    requires ReadyBefore(s, a, b) && s.current != Some(a) && s.current != Some(b)
    ensures var w := WaitPop(s, SendList(i)).1.value; FirstServed(Serve(Refill(s, i, w), w), a, b)
  {
    ServePair(s, Refill(s, i, WaitPop(s, SendList(i)).1.value), WaitPop(s, SendList(i)).1.value, a, b);
  }

  lemma ReceivePair(s: State, i: QueueId, timeout: Tick, a: TaskId, b: TaskId)
    requires Inv(s) && CurrentRuns(s) && QueueIsValid(s, Some(i)) && ReadyBefore(s, a, b)
    ensures FirstServed(ReceiveCurrent(s, Some(i), true, timeout), a, b)
  {
    ReadyBeforeIsLined(s, a, b);
    if s.queues[i].count > 0 {
      ReceiveUnfolds(s, i, timeout);
      if WaitPop(s, SendList(i)).1.Some? { RefillPair(s, i, a, b); }
    } else if timeout != 0 {
      BlockPair(s, ReceiveList(i), s.tasks[s.current.value].cell, timeout, a, b);
    }
  }

  lemma UnlockPair(s: State, m: MutexId, r: State, a: TaskId, b: TaskId)
    requires Inv(s) && UnlockWorks(s, Some(m)) && ReadyBefore(s, a, b) && r == UnlockCurrent(s, Some(m))
    requires SamePair(s, r, a, b)
    ensures FirstServed(r, a, b)
  {
    ReadyBeforeIsLined(s, a, b);
    var c := s.current.value;
    if At(s.lists, WaitList(MutexList(m))) == [] {
      UnlockFreePair(s, m, c, r, a, b);
    } else {
      var w := PassOn(s, m).1.value;
      UnlockPassPair(s, m, w, SetResult(PassOn(s, m).0, c, Status.Ok), r, a, b);
    }
  }

  lemma UnlockFreePair(s: State, m: MutexId, c: TaskId, r: State, a: TaskId, b: TaskId)
    requires Inv(s) && s.current == Some(c) && UnlockWorks(s, Some(m)) && At(s.lists, WaitList(MutexList(m))) == []
    requires r == UnlockCurrent(s, Some(m)) && ReadyBefore(s, a, b) && a != c && b != c
    ensures ReadyBefore(r, a, b)
  {
    UnlockFreeReply(s, m, c, r);
  }

  lemma UnlockPassPair(s: State, m: MutexId, w: TaskId, s1: State, r: State, a: TaskId, b: TaskId)
    requires Inv(s) && UnlockWorks(s, Some(m)) && Lined(s, a, b) && r == UnlockCurrent(s, Some(m))
    requires PassOn(s, m).1 == Some(w) && s1 == SetResult(PassOn(s, m).0, s.current.value, Status.Ok)
    requires SamePair(s, r, a, b)
    ensures FirstServed(r, a, b)
  {
    var d := MakeReady(WaitersChanged(s1), w, Status.Ok);
    assert r == MaybePreempt(d, w) by { UnlockIs(s, m, w); }
    assert SamePair(s, s1, a, b) && SamePair(d, r, a, b) && Inherited(GraphOf(s1))[a] == d.tasks[a].eff
           && Inherited(GraphOf(s1))[b] == d.tasks[b].eff by {
      UnlockEffs(s, m, w, s1, d, r);
    }
    assert CurrentRuns(d) && d.current == s.current by { UnlockHandsOver(s, m, w, s1, r); }
    PassedPair(s, m, s1, d, w, a, b);
  }

  lemma PassedPair(s: State, m: MutexId, s1: State, d: State, w: TaskId, a: TaskId, b: TaskId)
    requires CurrentRuns(s) && Lined(s, a, b) && CurrentRuns(d) && d.current == s.current
    requires s1 == SetResult(PassOn(s, m).0, s.current.value, Status.Ok)
    requires d == MakeReady(WaitersChanged(s1), w, Status.Ok)
    requires Inherited(GraphOf(s1))[a] == s.tasks[a].eff && Inherited(GraphOf(s1))[b] == s.tasks[b].eff
    ensures FirstServed(MaybePreempt(d, w), a, b)
  {
    SameLinesPair(s, s1, a, b);
    HandOffPair(s1, d, w, a, b);
  }

  lemma HandOffPair(s1: State, d: State, w: TaskId, a: TaskId, b: TaskId)
    requires ReadyBefore(s1, a, b) && d == MakeReady(WaitersChanged(s1), w, Status.Ok)
    requires Inherited(GraphOf(s1))[a] == s1.tasks[a].eff && Inherited(GraphOf(s1))[b] == s1.tasks[b].eff
    requires CurrentRuns(d) && d.current != Some(a) && d.current != Some(b)
    ensures FirstServed(MaybePreempt(d, w), a, b)
  {
    RecomputePair(s1, WaitersChanged(s1), a, b);
    MakeReadyPair(WaitersChanged(s1), w, Status.Ok, a, b);
    PreemptPair(d, w, a, b);
  }

  lemma {:induction false} ReleaseFromPair(s: State, t: TaskId, k: nat, a: TaskId, b: TaskId)
    requires ReadyBefore(s, a, b)
    ensures ReadyBefore(ReleaseFrom(s, t, k), a, b)
    decreases MAX_MUTEXES - k
  {
    if k < MAX_MUTEXES {
      ReleaseOnePair(s, t, k, a, b);
      ReleaseFromPair(ReleaseOne(s, t, k), t, k + 1, a, b);
    }
  }

  lemma ReleaseOnePair(s: State, t: TaskId, m: MutexId, a: TaskId, b: TaskId)
    requires ReadyBefore(s, a, b)
    ensures ReadyBefore(ReleaseOne(s, t, m), a, b)
  {
    if Owns(s, t, m) {
      var (s1, w) := PassOn(s, m);
      SameLinesPair(s, s1, a, b);
      if w.Some? { MakeReadyPair(s1, w.value, Status.Ok, a, b); }
    }
  }

  lemma ExitPair(s: State, c: TaskId, r: State, a: TaskId, b: TaskId)
    requires Inv(s) && s.current == Some(c) && r == TerminateCurrent(s) && ReadyBefore(s, a, b) && SamePair(s, r, a, b)
    ensures FirstServed(r, a, b)
  {
    var s1, s2 := ReleaseFrom(s, c, 0), ReleaseTask(s, c);
    var s3 := SetTask(s2, c, s2.tasks[c].(state := Terminated));
    ExitFrame(s, c, s1, s2, s3, r);
    assert ReadyBefore(s1, a, b) by { ReleaseFromPair(s, c, 0, a, b); }
    assert ReadyBefore(s2, a, b) by { ReleasedPair(s, c, s1, s2, a, b); }
    SameLinesPair(s2, s3, a, b);
    PickPair(s3, a, b);
  }

  lemma ReleasedPair(s: State, c: TaskId, s1: State, s2: State, a: TaskId, b: TaskId)
    requires Orderly(s1, c) && s1 == ReleaseFrom(s, c, 0) && s2 == ReleaseTask(s, c)
    requires ReadyBefore(s1, a, b) && SamePair(s1, s2, a, b)
    ensures ReadyBefore(s2, a, b)
  {
    if exists m: MutexId :: Owns(s, c, m) {
      RecomputeKeeps(s1, false);
      RecomputePair(s1, s2, a, b);
    }
  }

  lemma StartPair(s: State, a: TaskId, b: TaskId)
    requires Inv(s) && ReadyBefore(s, a, b)
    ensures FirstServed(SchedStart(s), a, b)
  {
    if !s.started {
      StartUnfolds(s);
      SameLinesPair(s, s.(started := true), a, b);
      PickPair(s.(started := true), a, b);
    }
  }

  lemma CreatePair(s: State, op: Op, a: TaskId, b: TaskId)
    requires Inv(s) && ReadyBefore(s, a, b)
    requires op.CreateTask? || op.EnsureIdle? || op.CreateSem? || op.CreateQueue? || op.CreateMutex?
    ensures ReadyBefore(Next(s, op), a, b)
  {
    ReadyBeforeIsLined(s, a, b);
    if op.CreateTask? { AddedPair(s, op.priority, false, a, b); }
    if op.EnsureIdle? { AddedPair(s, IDLE_PRIORITY, true, a, b); }
  }

  lemma AddedPair(s: State, priority: nat, idle: bool, a: TaskId, b: TaskId)
    requires Inv(s) && Lined(s, a, b)
    ensures ReadyBefore(TaskCreate(s, priority, idle), a, b)
  {
    if !s.started && priority < PRIORITY_COUNT && s.taskCount < MAX_TASKS {
      var s1 := SetTask(s, s.taskCount, NewTask(priority));
      assert s.tasks[s.taskCount].state == Unused;
      SameLinesPair(s, s1, a, b);
      EnqueuePair(s1, s.taskCount, a, b);
    }
  }

  lemma TickPairKept(s: State, r: State, a: TaskId, b: TaskId)
    requires Inv(s) && ReadyBefore(s, a, b) && SamePair(s, r, a, b) && r == TimeTick(s)
    ensures FirstServed(r, a, b)
  {
    var s0 := AdvanceClock(s);
    assert Ticking(s0) && s0.tasks == s.tasks && s0.lists == s.lists by { AdvanceKeeps(s); }
    SameLinesPair(s, s0, a, b);
    TickPairFrom(s0, r, a, b);
  }

  // ----- A lock that waits

  /** a is the next to run: nobody ready is more urgent, and it stands first. */
  ghost predicate NextUp(s: State, a: TaskId) {
    && s.tasks[a].state == Ready && (forall u: TaskId :: s.tasks[u].state == Ready ==> s.tasks[u].eff <= s.tasks[a].eff)
    && var q := At(s.lists, ReadyList(s.tasks[a].eff)); q != [] && q[0] == a
  }

  /** The chain of owners that starts with o ends in a ready task. */
  ghost predicate CanRunFor(s: State, o: TaskId) {
    exists p: seq<TaskId> :: WaitingChain(s, p) && p[0] == o && s.tasks[p[|p| - 1]].state == Ready
  }

  /** The calling task locks a mutex of somebody else and waits. That first lets a run; but a is less
      urgent than the caller, whose priority the task at the end of the chain of owners inherits. */
  ghost predicate Overtaken(s: State, op: Op, a: TaskId) {
    && op.Lock? && MustWait(s, op) && s.current.Some? && NextUp(s, a)
    && s.tasks[s.current.value].eff > s.tasks[a].eff && CanRunFor(s, s.mutexes[op.lock.value].owner.value)
  }

  // A lock that waits goes through three stages: the caller c sleeps and somebody is picked (s2),
  // priorities are recomputed (s3), and the scheduler looks again (r).

  ghost predicate SleepStage(s: State, c: TaskId, o: TaskId, s2: State) {
    && SameEff(s, s2) && Highest(s2) && OneRuns(s2.tasks, s2.current) && Structure(s2, {})
    && (s2.current.Some? ==> s2.started)
    && GraphOf(s).next[c] == None && GraphOf(s2) == GraphOf(s).(next := GraphOf(s).next[c := Some(o)])
    && forall t: TaskId :: Runnable(s2.tasks[t].state) <==> t != c && Runnable(s.tasks[t].state)
  }

  ghost predicate RecomputeStage(s2: State, s3: State) {
    && s3 == WaitersChanged(s2) && s3.current == s2.current && s3.started == s2.started
    && GraphOf(s3) == GraphOf(s2) && PrioritiesInherited(s3) && Containers(s3, {})
    && forall t: TaskId :: s3.tasks[t].state == s2.tasks[t].state
  }

  ghost predicate DecisionStage(s3: State, o: TaskId, r: State) {
    && SameEff(s3, r)
    && r == if s3.current.Some? && s3.tasks[o].eff > s3.tasks[s3.current.value].eff then Schedule(s3, false) else s3
  }

  lemma Sleeps(s: State, m: MutexId, timeout: Tick, c: TaskId, o: TaskId, s2: State)
    requires Inv(s) && s.current == Some(c) && !IsIdle(s.tasks[c]) && timeout != 0
    requires s.mutexes[m].used && s.mutexes[m].owner == Some(o) && o != c
    requires s2 == WaitBlock(s, MutexList(m), s.tasks[c].cell, timeout)
    ensures SleepStage(s, c, o, s2) && Objects(s2) && PoolFits(s2)
  {
    BlockedOnMutex(s, m, timeout);
    assert forall t: TaskId :: Runnable(s2.tasks[t].state) <==> t != c && Runnable(s.tasks[t].state) by {
      BlockedStates(s, m, timeout, c, s2);
    }
  }

  lemma Recomputes(s2: State, s3: State)
    requires Structure(s2, {}) && Objects(s2) && PoolFits(s2) && s3 == WaitersChanged(s2)
    ensures RecomputeStage(s2, s3)
  {
    RecomputeKeeps(s2, false);
  }

  lemma Decides(s: State, m: MutexId, timeout: Tick, c: TaskId, o: TaskId, s2: State, s3: State, r: State)
    requires s.current == Some(c) && s.tasks[c].state == Running && timeout != 0 && o != c
    requires s.mutexes[m].used && s.mutexes[m].owner == Some(o) && r == LockCurrent(s, Some(m), timeout)
    requires s2 == WaitBlock(s, MutexList(m), s.tasks[c].cell, timeout) && s3 == WaitersChanged(s2)
    requires Containers(s3, {}) && OneRuns(s3.tasks, s3.current)
    ensures DecisionStage(s3, o, r)
  {
    LockIs(s, m, timeout);
    ScheduleKeeps(s3, false);
  }

  lemma BlockedStates(s: State, m: MutexId, timeout: Tick, c: TaskId, s2: State)
    requires Inv(s) && s.current == Some(c) && timeout != 0
             && s2 == WaitBlock(s, MutexList(m), s.tasks[c].cell, timeout)
    ensures forall t: TaskId :: Runnable(s2.tasks[t].state) <==> t != c && Runnable(s.tasks[t].state)
  {
    var l, cell, n := MutexList(m), s.tasks[c].cell, ClampTimeout(timeout);
    var s1 := Park(s, c, l, cell, n);
    assert s2 == PickNext(s1) by { WaitBlockUnfolds(s, l, cell, timeout); }
    OnlyParked(s, c, l, cell, n, s1);
    PickNextKeeps(s1);
    OnlySleeper(s, c, s1, s2);
  }

  lemma OnlyParked(s: State, c: TaskId, l: WaitId, cell: Message, n: Tick, s1: State)
    requires Structure(s, {}) && OneRuns(s.tasks, Some(c)) && (n == WAIT_FOREVER || 1 <= n <= MAX_DELAY_TICKS)
    requires s1 == Park(s, c, l, cell, n)
    ensures Containers(s1, {}) && NoneRuns(s1.tasks) && s1.tasks[c].state == BlockedObject
    ensures forall t: TaskId :: t != c ==> s1.tasks[t] == s.tasks[t]
  {
    ParkKeeps(s, c, l, cell, n);
    ParkCoherent(s, c, l, cell, n);
  }

  lemma OnlySleeper(s: State, c: TaskId, s1: State, s2: State)
    requires s1.tasks[c].state == BlockedObject && forall t: TaskId :: t != c ==> s1.tasks[t] == s.tasks[t]
    requires Quiet(s1, s2)
    ensures forall t: TaskId :: Runnable(s2.tasks[t].state) <==> t != c && Runnable(s.tasks[t].state)
  {
    forall t: TaskId ensures Runnable(s2.tasks[t].state) <==> t != c && Runnable(s.tasks[t].state) {
      assert SameJob(s1.tasks[t], s2.tasks[t]);
    }
  }

  // ----- Who is picked while the caller goes to sleep

  lemma PickedIsNextUp(s: State, l: WaitId, cell: Message, n: Tick, c: TaskId, s2: State, a: TaskId)
    requires Structure(s, {}) && OneRuns(s.tasks, Some(c)) && (n == WAIT_FOREVER || 1 <= n <= MAX_DELAY_TICKS)
    requires s2 == PickNext(Park(s, c, l, cell, n)) && s.tasks[a].state == Ready
    ensures s2.current == Some(a) <==> NextUp(s, a)
  {
    ParkedNextUp(s, l, cell, n, c, Park(s, c, l, cell, n), a);
    FirstIsPicked(Park(s, c, l, cell, n), a);
  }

  lemma ParkedNextUp(s: State, l: WaitId, cell: Message, n: Tick, c: TaskId, s1: State, a: TaskId)
    requires Structure(s, {}) && OneRuns(s.tasks, Some(c)) && (n == WAIT_FOREVER || 1 <= n <= MAX_DELAY_TICKS)
    requires s1 == Park(s, c, l, cell, n) && s.tasks[a].state == Ready
    ensures Containers(s1, {}) && s1.tasks[a] == s.tasks[a] && (NextUp(s1, a) <==> NextUp(s, a))
  {
    ParkKeeps(s, c, l, cell, n);
    SameNextUp(s, c, s1, a);
  }

  lemma SameNextUp(s: State, c: TaskId, s1: State, a: TaskId)
    requires s.tasks[c].state == Running && s1.tasks[c].state == BlockedObject
    requires forall t: TaskId :: t != c ==> s1.tasks[t] == s.tasks[t]
    requires forall p: Priority :: At(s1.lists, ReadyList(p)) == At(s.lists, ReadyList(p))
    ensures NextUp(s1, a) <==> NextUp(s, a)
  {
    forall t: TaskId ensures s1.tasks[t].state == Ready <==> s.tasks[t].state == Ready {
    }
    if NextUp(s1, a) {
      forall u: TaskId | s.tasks[u].state == Ready ensures s.tasks[u].eff <= s.tasks[a].eff {
        assert s1.tasks[u].state == Ready;
      }
    }
  }

  lemma FirstIsPicked(s1: State, a: TaskId)
    requires Containers(s1, {}) && s1.tasks[a].state == Ready
    ensures PickNext(s1).current == Some(a) <==> NextUp(s1, a)
  {
    ReadyHighestIsHighest(s1);
    var h := ReadyHighest(s1);
    var q := At(s1.lists, ReadyList(h));
    assert PickNext(s1).current == Some(q[0]);
    assert s1.tasks[q[0]].eff == h >= s1.tasks[a].eff;
  }

  // ----- What becomes of the order

  /** A lock that waits keeps the order of a and b, unless it picks a and then drops it again. */
  lemma LockPair(s2: State, s3: State, o: TaskId, r: State, a: TaskId, b: TaskId)
    requires FirstServed(s2, a, b) && RecomputeStage(s2, s3) && DecisionStage(s3, o, r) && SamePair(s2, r, a, b)
    requires OneRuns(s3.tasks, s3.current)
    ensures FirstServed(r, a, b) || (s2.current == Some(a) && r.current != Some(a))
  {
    if s2.current != Some(a) {
      assert Priorities(s3)[a] == s3.tasks[a].eff && Priorities(s3)[b] == s3.tasks[b].eff;
      RecomputePair(s2, s3, a, b);
      PairIsQueued(s3, a, b);
      SchedulePair(s3, false, a, b);
    }
  }

  lemma PairIsQueued(s: State, a: TaskId, b: TaskId)
    requires Containers(s, {}) && ReadyBefore(s, a, b)
    ensures s.tasks[a].state == Ready && s.tasks[b].state == Ready
  {
    var q := At(s.lists, ReadyList(s.tasks[a].eff));
    var i, j :| 0 <= i < j < |q| && q[i] == a && q[j] == b;
    assert q[i] in q && q[j] in q;
  }

  /** a is dropped again exactly when somebody above it inherits the priority of the caller. */
  lemma DroppedExactlyWhen(s: State, c: TaskId, o: TaskId, s2: State, s3: State, r: State, a: TaskId)
    requires Inv(s) && s.current == Some(c) && o != c && SleepStage(s, c, o, s2) && s2.current == Some(a)
    requires RecomputeStage(s2, s3) && DecisionStage(s3, o, r) && r.tasks[a].eff == s.tasks[a].eff
    requires s.tasks[a].state == Ready
    ensures r.current != Some(a) ==> Outdone(r, a)
    ensures r.current != Some(a) <==> s.tasks[c].eff > s.tasks[a].eff && CanRunFor(s, o)
  {
    StagesRun(s2, s3);
    ScheduleTurns(s3, a);
    if r.current != Some(a) { OutdoneByHeir(s, c, o, s2, s3, r, a); }
    if s.tasks[c].eff > s.tasks[a].eff && CanRunFor(s, o) {
      var p: seq<TaskId> :| WaitingChain(s, p) && p[0] == o && s.tasks[p[|p| - 1]].state == Ready;
      HeirOutdoes(s, c, o, s2, s3, r, a, p);
    }
  }

  lemma StagesRun(s2: State, s3: State)
    requires OneRuns(s2.tasks, s2.current) && RecomputeStage(s2, s3)
    ensures OneRuns(s3.tasks, s3.current)
  {
  }

  /** The task that outdid a rose, so it is reached from the owner, to no more than the caller has. */
  lemma OutdoneByHeir(s: State, c: TaskId, o: TaskId, s2: State, s3: State, r: State, a: TaskId)
    requires PrioritiesInherited(s) && SleepStage(s, c, o, s2) && s2.current == Some(a) && RecomputeStage(s2, s3)
    requires DecisionStage(s3, o, r) && r.tasks[a].eff == s.tasks[a].eff && Outdone(r, a)
    requires s.current == Some(c) && OneRuns(s.tasks, s.current) && OneRuns(s3.tasks, s3.current)
    ensures s.tasks[c].eff > s.tasks[a].eff && CanRunFor(s, o)
  {
    var n := r.current.value;
    HeirWasReady(s, c, o, s2, s3, r, a, n);
    HeirIsReached(s, c, o, s3, a, n);
  }

  lemma HeirWasReady(s: State, c: TaskId, o: TaskId, s2: State, s3: State, r: State, a: TaskId, n: TaskId)
    requires SleepStage(s, c, o, s2) && s2.current == Some(a) && RecomputeStage(s2, s3) && DecisionStage(s3, o, r)
    requires r.tasks[a].eff == s.tasks[a].eff && Outdone(r, a) && r.current == Some(n) && s.current == Some(c)
    requires OneRuns(s.tasks, s.current) && OneRuns(s3.tasks, s3.current)
    ensures n != c && s.tasks[n].state == Ready && s.tasks[n].eff <= s.tasks[a].eff < s3.tasks[n].eff
  {
    assert s3.tasks[n].state == Ready by {
      ScheduleKeeps(s3, false);
      assert SameJob(s3.tasks[n], r.tasks[n]);
    }
    assert s2.tasks[n].state == Ready;
  }

  lemma HeirIsReached(s: State, c: TaskId, o: TaskId, s3: State, a: TaskId, n: TaskId)
    requires PrioritiesInherited(s) && PrioritiesInherited(s3) && GraphOf(s).next[c] == None && n != c
    requires GraphOf(s3) == GraphOf(s).(next := GraphOf(s).next[c := Some(o)])
    requires s.tasks[n].state == Ready && s.tasks[n].eff <= s.tasks[a].eff < s3.tasks[n].eff
    ensures s.tasks[c].eff > s.tasks[a].eff && CanRunFor(s, o)
  {
    assert Priorities(s)[n] == s.tasks[n].eff && Priorities(s)[c] == s.tasks[c].eff;
    assert Priorities(s3)[n] == s3.tasks[n].eff;
    var q := RiserIsReached(GraphOf(s), GraphOf(s3), c, o, n);
    var p := PathIsChain(s, q);
    assert WaitingChain(s, p) && p[0] == o && s.tasks[p[|p| - 1]].state == Ready;
  }

  /** The ready task at the end of the chain now has the priority of the caller. */
  lemma HeirOutdoes(s: State, c: TaskId, o: TaskId, s2: State, s3: State, r: State, a: TaskId, p: seq<TaskId>)
    requires PrioritiesInherited(s) && SleepStage(s, c, o, s2) && s2.current == Some(a) && RecomputeStage(s2, s3)
    requires DecisionStage(s3, o, r) && r.tasks[a].eff == s.tasks[a].eff && s.tasks[c].eff > s.tasks[a].eff
    requires WaitingChain(s, p) && p[0] == o && s.tasks[p[|p| - 1]].state == Ready && s.tasks[c].state == Running
    requires OneRuns(s3.tasks, s3.current)
    ensures r.current != Some(a)
  {
    var e, q := p[|p| - 1], [c] + p;
    ExtendedChain(s, c, o, s3, p);
    EffAlongChain(s3, q);
    assert s3.tasks[c].eff <= s3.tasks[e].eff;
    assert s.tasks[c].eff <= s3.tasks[c].eff && s3.tasks[c].eff <= s3.tasks[o].eff by { CallerRises(s, c, o, s3); }
    assert s3.tasks[e].state == Ready && Outranks(s3, e);
    BeatenIsOutdone(s3, a, r);
  }

  lemma ExtendedChain(s: State, c: TaskId, o: TaskId, s3: State, p: seq<TaskId>)
    requires GraphOf(s).next[c] == None && GraphOf(s3) == GraphOf(s).(next := GraphOf(s).next[c := Some(o)])
    requires WaitingChain(s, p) && p[0] == o
    ensures WaitingChain(s3, [c] + p)
  {
    var q := [c] + p;
    forall i | 0 <= i < |q| - 1 ensures WaitsFor(s3, q[i]) == Some(q[i + 1]) {
      if i == 0 {
        assert GraphOf(s3).next[c] == Some(o);
      } else {
        assert WaitsFor(s, p[i - 1]) == Some(p[i]);
        assert GraphOf(s).next[p[i - 1]] == Some(p[i]) && GraphOf(s3).next[p[i - 1]] == GraphOf(s).next[p[i - 1]];
      }
    }
  }

  lemma CallerRises(s: State, c: TaskId, o: TaskId, s3: State)
    requires PrioritiesInherited(s) && PrioritiesInherited(s3) && GraphOf(s).next[c] == None
    requires GraphOf(s3) == GraphOf(s).(next := GraphOf(s).next[c := Some(o)])
    ensures s.tasks[c].eff <= s3.tasks[c].eff <= s3.tasks[o].eff
  {
    WaitingStarts(GraphOf(s), GraphOf(s3), c, o);
    InheritedIsClosed(GraphOf(s3));
    assert Edge(GraphOf(s3), c, o);
    assert Priorities(s)[c] == s.tasks[c].eff;
    assert Priorities(s3)[c] == s3.tasks[c].eff && Priorities(s3)[o] == s3.tasks[o].eff;
  }

  lemma LastIsNotFirst(r: State, a: TaskId, b: TaskId)
    requires Distinct(r.lists) && QueuedLast(r, a)
    ensures !ReadyBefore(r, a, b)
  {
    var q := At(r.lists, ReadyList(r.tasks[a].eff));
    assert NoDuplicates(q);
    forall i | 0 <= i < |q| - 1 ensures q[i] != a { assert q[i] != q[|q| - 1]; }
  }

  lemma WaitingLockPair(s: State, m: MutexId, timeout: Tick, c: TaskId, o: TaskId, r: State, a: TaskId, b: TaskId)
    requires Inv(s) && s.current == Some(c) && !IsIdle(s.tasks[c]) && timeout != 0 && ReadyBefore(s, a, b)
    requires s.mutexes[m].used && s.mutexes[m].owner == Some(o) && o != c
    requires r == LockCurrent(s, Some(m), timeout) && SamePair(s, r, a, b) && Containers(r, {})
    ensures FirstServed(r, a, b) <==> !(NextUp(s, a) && s.tasks[c].eff > s.tasks[a].eff && CanRunFor(s, o))
  {
    var cell := s.tasks[c].cell;
    var s2 := WaitBlock(s, MutexList(m), cell, timeout);
    var s3 := WaitersChanged(s2);
    assert s.tasks[a].state == Ready && FirstServed(s2, a, b) && (s2.current == Some(a) <==> NextUp(s, a)) by {
      ParkedPair(s, MutexList(m), cell, timeout, c, s2, a, b);
    }
    assert SleepStage(s, c, o, s2) && RecomputeStage(s2, s3) && OneRuns(s3.tasks, s3.current) by {
      Sleeps(s, m, timeout, c, o, s2);
      Recomputes(s2, s3);
      StagesRun(s2, s3);
    }
    assert DecisionStage(s3, o, r) by { Decides(s, m, timeout, c, o, s2, s3, r); }
    StagedPair(s, c, o, s2, s3, r, a, b);
  }

  lemma ParkedPair(s: State, l: WaitId, cell: Message, timeout: Tick, c: TaskId, s2: State, a: TaskId, b: TaskId)
    requires Inv(s) && s.current == Some(c) && timeout != 0 && ReadyBefore(s, a, b)
    requires s2 == WaitBlock(s, l, cell, timeout)
    ensures s.tasks[a].state == Ready && FirstServed(s2, a, b) && (s2.current == Some(a) <==> NextUp(s, a))
  {
    ReadyBeforeIsLined(s, a, b);
    BlockPair(s, l, cell, timeout, a, b);
    assert s2 == PickNext(Park(s, c, l, cell, ClampTimeout(timeout))) by { WaitBlockUnfolds(s, l, cell, timeout); }
    PickedIsNextUp(s, l, cell, ClampTimeout(timeout), c, s2, a);
  }

  lemma StagedPair(s: State, c: TaskId, o: TaskId, s2: State, s3: State, r: State, a: TaskId, b: TaskId)
    requires Inv(s) && s.current == Some(c) && o != c && s.tasks[a].state == Ready && SamePair(s, r, a, b)
    requires SleepStage(s, c, o, s2) && RecomputeStage(s2, s3) && DecisionStage(s3, o, r) && Containers(r, {})
    requires OneRuns(s3.tasks, s3.current) && FirstServed(s2, a, b) && (s2.current == Some(a) <==> NextUp(s, a))
    ensures FirstServed(r, a, b) <==> !(NextUp(s, a) && s.tasks[c].eff > s.tasks[a].eff && CanRunFor(s, o))
  {
    LockPair(s2, s3, o, r, a, b);
    if s2.current == Some(a) {
      DroppedExactlyWhen(s, c, o, s2, s3, r, a);
      if r.current != Some(a) { LastIsNotFirst(r, a, b); }
    }
  }

  // ----- Every step

  /** If a stands before b among the ready tasks and neither priority changes, then afterwards a runs
      or still stands before b: for every step, except exactly when a waiting lock picks a and drops it. */
  lemma ReadyOrderKept(s: State, op: Op, r: State, a: TaskId, b: TaskId)
    requires Inv(s) && Allowed(s, op) && r == Next(s, op) && ReadyBefore(s, a, b) && SamePair(s, r, a, b)
    ensures FirstServed(r, a, b) <==> !Overtaken(s, op, a)
  {
    if op.Lock? {
      LockKeepsPair(s, op.lock, op.timeout, r, a, b);
    } else if IsCall(op) {
      if s.current == None { NobodyCalls(s, op); } else { CallPair(s, op, r, a, b); }
    } else {
      OtherPair(s, op, r, a, b);
    }
  }

  lemma LockKeepsPair(s: State, m: Option<MutexId>, timeout: Tick, r: State, a: TaskId, b: TaskId)
    requires Inv(s) && Allowed(s, Op.Lock(m, timeout)) && r == Next(s, Op.Lock(m, timeout))
    requires ReadyBefore(s, a, b) && SamePair(s, r, a, b)
    ensures FirstServed(r, a, b) <==> !Overtaken(s, Op.Lock(m, timeout), a)
  {
    if s.current.Some? && MustWait(s, Op.Lock(m, timeout)) {
      assert Containers(r, {}) by { NextKeeps(s, Op.Lock(m, timeout)); }
      WaitingLockPair(s, m.value, timeout, s.current.value, s.mutexes[m.value].owner.value, r, a, b);
    } else if s.current.Some? {
      LockReplies(s, m, timeout, s.current.value, r);
    }
  }

  lemma CallPair(s: State, op: Op, r: State, a: TaskId, b: TaskId)
    requires Inv(s) && s.current.Some? && IsCall(op) && !op.Lock? && r == Next(s, op)
    requires ReadyBefore(s, a, b) && SamePair(s, r, a, b)
    ensures FirstServed(r, a, b)
  {
    var c := s.current.value;
    ReadyBeforeIsLined(s, a, b);
    match op
    case Yield => YieldPair(s, c, a, b);
    case Delay(n) => if n == 0 { YieldPair(s, c, a, b); } else { DelayPair(s, n, a, b); }
    case Take(i, timeout) => TakePair(s, i, timeout, a, b);
    case Give(i) => GivePair(s, i, a, b);
    case Send(i, item, timeout) =>
      if QueueIsValid(s, i) && item.Some? { SendPair(s, i.value, item.value, timeout, a, b); }
    case Receive(i, out, timeout) =>
      if QueueIsValid(s, i) && out { ReceivePair(s, i.value, timeout, a, b); }
    case Unlock(m) => if UnlockWorks(s, m) { UnlockPair(s, m.value, r, a, b); }
    case Exit => ExitPair(s, c, r, a, b);
  }

  lemma OtherPair(s: State, op: Op, r: State, a: TaskId, b: TaskId)
    requires Inv(s) && !IsCall(op) && r == Next(s, op) && ReadyBefore(s, a, b) && SamePair(s, r, a, b)
    ensures FirstServed(r, a, b)
  {
    ReadyBeforeIsLined(s, a, b);
    match op
    case GiveIsr(i) => GiveIsrPair(s, i, a, b);
    case Tick => TickPairKept(s, r, a, b);
    case Enter => SameLinesPair(s, r, a, b);
    case Leave => LeavePair(s, a, b);
    case Start => StartPair(s, a, b);
    case _ => CreatePair(s, op, a, b);
  }

  // ----- Runs

  /** In every step both keep their priorities and no lock drops a. */
  ghost predicate PairHeld(s: State, ops: seq<Op>, a: TaskId, b: TaskId)
    decreases |ops|
  {
    ops == [] || (SamePair(s, Next(s, ops[0]), a, b) && !Overtaken(s, ops[0], a)
                  && PairHeld(Next(s, ops[0]), ops[1..], a, b))
  }

  /** b does not run before a has. */
  ghost predicate ServedFirst(s: State, ops: seq<Op>, a: TaskId, b: TaskId)
    decreases |ops|
  {
    ops == [] ||
    (var r := Next(s, ops[0]);
     r.current == Some(a) || (r.current != Some(b) && ReadyBefore(r, a, b) && ServedFirst(r, ops[1..], a, b)))
  }

  /** Over any run, of two ready tasks of one priority the one that stands first runs first. */
  lemma {:induction false} FirstComeFirstServed(s: State, ops: seq<Op>, a: TaskId, b: TaskId)
    requires Inv(s) && AllowedRun(s, ops) && ReadyBefore(s, a, b) && PairHeld(s, ops, a, b)
    ensures ServedFirst(s, ops, a, b)
    decreases |ops|
  {
    if ops != [] {
      var r := Next(s, ops[0]);
      ReadyOrderKept(s, ops[0], r, a, b);
      NextKeeps(s, ops[0]);
      if r.current != Some(a) {
        ReadyBeforeIsLined(r, a, b);
        FirstComeFirstServed(r, ops[1..], a, b);
      }
    }
  }

  // ----- The exception occurs

  /** Task 0 (priority 3) runs, 1 and 2 (priority 2) are ready in this order, and task 3 (priority 1),
      ready too, owns mutex 0. */
  function Crowd(): State {
    var task := UNUSED_TASK.(state := Ready);
    var s := State(seq(MAX_TASKS, _ => UNUSED_TASK), 4, map[ReadyList(2) := [1, 2], ReadyList(1) := [3]], {1, 2},
                   [[], []], 0, 7, Some(0), 0, false, true, None,
                   seq(MAX_SEMAPHORES, _ => Semaphore(false, 0, 0)), seq(MAX_QUEUES, _ => Queue(false, [], 0, 0, 0, 0)),
                   seq(MAX_MUTEXES, i => if i == 0 then Mutex(true, Some(3)) else Mutex(false, None)));
    s.(tasks := s.tasks[0 := task.(base := 3, eff := 3, state := Running, slice := 5)]
                       [1 := task.(base := 2, eff := 2)][2 := task.(base := 2, eff := 2)]
                       [3 := task.(base := 1, eff := 1)])
  }

  lemma CrowdFits()
    ensures Inv(Crowd())
  {
    var s := Crowd();
    assert Containers(s, {}) by { CrowdContainers(); }
    assert Delays(s, false) && AllCoherent(s.tasks) by { CrowdTasks(s); }
    assert Objects(s) && PoolFits(s) && OneRuns(s.tasks, s.current) && TopRuns(s) && SliceInRange(s) by {
      CrowdObjects(s);
    }
    assert PrioritiesInherited(s) by { CrowdPriorities(s); }
  }

  lemma CrowdTasks(s: State)
    requires s == Crowd()
    ensures Delays(s, false) && AllCoherent(s.tasks)
  {
    assert forall d: DelayIndex :: s.delayed[d] == [];
    forall t: TaskId ensures Coherent(s.tasks[t]) && s.tasks[t].delayList == None { }
  }

  lemma CrowdObjects(s: State)
    requires s == Crowd()
    ensures Objects(s) && PoolFits(s) && OneRuns(s.tasks, s.current) && TopRuns(s) && SliceInRange(s)
  {
    forall m: MutexId ensures OwnerFits(s.tasks, s.mutexes[m]) { }
    forall t: TaskId ensures WaitFits(s, t) { }
  }

  lemma CrowdPriorities(s: State)
    requires s == Crowd()
    ensures PrioritiesInherited(s) && forall t: TaskId :: WaitsFor(s, t) == None
  {
    forall t: TaskId ensures WaitsFor(s, t) == None && s.tasks[t].base == s.tasks[t].eff { }
    NobodyInherits(s);
    assert Priorities(s) == Inherited(GraphOf(s));
  }

  lemma CrowdContainers()
    ensures Containers(Crowd(), {})
  {
    var s := Crowd();
    assert At(s.lists, ReadyList(2)) == [1, 2] && At(s.lists, ReadyList(1)) == [3];
    assert forall l: ListId :: l != ReadyList(2) && l != ReadyList(1) ==> At(s.lists, l) == [];
  }

  lemma CrowdIsOvertaken()
    ensures ReadyBefore(Crowd(), 1, 2) && Overtaken(Crowd(), Op.Lock(Some(0), 5), 1)
  {
    var s := Crowd();
    var q := At(s.lists, ReadyList(2));
    assert q == [1, 2] && q[0] == 1 && q[1] == 2;
    assert WaitingChain(s, [3]) && s.tasks[3].state == Ready;
  }

  /** Task 0 locks the mutex of task 3: task 1, which stood first, is picked and dropped again, and now
      neither runs nor stands before task 2. */
  lemma LosesItsPlace(r: State)
    requires r == Next(Crowd(), Op.Lock(Some(0), 5))
    ensures ReadyBefore(Crowd(), 1, 2) && r.tasks[1].eff == r.tasks[2].eff == 2
    ensures r.current != Some(1) && !ReadyBefore(r, 1, 2)
  {
    CrowdFits();
    CrowdIsOvertaken();
    assert r.tasks[1].eff == 2 && r.tasks[2].eff == 2 by {
      CrowdScene(Crowd());
      NextIsLock(Crowd(), Some(0), 5);
      SceneKeepsBase(Crowd(), 0, 5, 0, 3, r, 1, 2);
    }
    OvertakenLoses(Crowd(), Op.Lock(Some(0), 5), r, 1, 2);
  }

  lemma OvertakenLoses(s: State, op: Op, r: State, a: TaskId, b: TaskId)
    requires Inv(s) && Allowed(s, op) && r == Next(s, op) && ReadyBefore(s, a, b) && SamePair(s, r, a, b)
    requires Overtaken(s, op, a)
    ensures r.current != Some(a) && !ReadyBefore(r, a, b)
  {
    ReadyOrderKept(s, op, r, a, b);
  }

  /** c runs, o owns mutex m, and nobody waits for a mutex. */
  ghost predicate Scene(s: State, m: MutexId, c: TaskId, o: TaskId) {
    && s.current == Some(c) && !IsIdle(s.tasks[c]) && o != c && s.mutexes[m] == Mutex(true, Some(o))
    && forall t: TaskId :: WaitsFor(s, t) == None
  }

  lemma CrowdScene(s: State)
    requires s == Crowd()
    ensures Scene(s, 0, 0, 3) && s.tasks[1].base == 2 && s.tasks[2].base == 2
  {
    CrowdPriorities(s);
  }

  lemma SceneKeepsBase(s: State, m: MutexId, timeout: Tick, c: TaskId, o: TaskId, r: State, a: TaskId, b: TaskId)
    requires Inv(s) && Scene(s, m, c, o) && a != o && b != o && timeout != 0
    requires r == LockCurrent(s, Some(m), timeout)
    ensures r.tasks[a].eff == s.tasks[a].base && r.tasks[b].eff == s.tasks[b].base
  {
    UnwaitedStays(s, m, timeout, c, o, r, a);
    UnwaitedStays(s, m, timeout, c, o, r, b);
  }

  lemma NextIsLock(s: State, m: Option<MutexId>, timeout: Tick)
    ensures Next(s, Op.Lock(m, timeout)) == LockCurrent(s, m, timeout)
  {
  }

  /** While nobody waits for t, a lock on a mutex of somebody else leaves t at its base priority. */
  lemma UnwaitedStays(s: State, m: MutexId, timeout: Tick, c: TaskId, o: TaskId, r: State, t: TaskId)
    requires Inv(s) && s.current == Some(c) && !IsIdle(s.tasks[c]) && timeout != 0 && o != c && t != o
    requires s.mutexes[m].used && s.mutexes[m].owner == Some(o) && r == LockCurrent(s, Some(m), timeout)
    requires forall u: TaskId :: WaitsFor(s, u) != Some(t)
    ensures r.tasks[t].eff == s.tasks[t].base
  {
    var s2 := WaitBlock(s, MutexList(m), s.tasks[c].cell, timeout);
    var s3 := WaitersChanged(s2);
    assert SleepStage(s, c, o, s2) && RecomputeStage(s2, s3) && OneRuns(s3.tasks, s3.current) by {
      Sleeps(s, m, timeout, c, o, s2);
      Recomputes(s2, s3);
      StagesRun(s2, s3);
    }
    assert DecisionStage(s3, o, r) by { Decides(s, m, timeout, c, o, s2, s3, r); }
    UnwaitedStage(s, c, o, s2, s3, r, t);
  }

  lemma UnwaitedStage(s: State, c: TaskId, o: TaskId, s2: State, s3: State, r: State, t: TaskId)
    requires SleepStage(s, c, o, s2) && RecomputeStage(s2, s3) && DecisionStage(s3, o, r) && t != o
    requires forall u: TaskId :: WaitsFor(s, u) != Some(t)
    ensures r.tasks[t].eff == s.tasks[t].base
  {
    UnwaitedEff(s, c, o, s3, t);
  }

  lemma UnwaitedEff(s: State, c: TaskId, o: TaskId, s3: State, t: TaskId)
    requires PrioritiesInherited(s3) && GraphOf(s3) == GraphOf(s).(next := GraphOf(s).next[c := Some(o)]) && t != o
    requires forall u: TaskId :: WaitsFor(s, u) != Some(t)
    ensures s3.tasks[t].eff == s.tasks[t].base
  {
    var g := GraphOf(s3);
    forall w ensures !Edge(g, w, t) {
      if 0 <= w < MAX_TASKS && w != c { assert GraphOf(s).next[w] == WaitsFor(s, w); }
    }
    UnwaitedKeepsBase(g, t);
    assert Priorities(s3)[t] == s3.tasks[t].eff && GraphOf(s).base[t] == s.tasks[t].base;
  }
}
