/** One tick: exact expiry, no missed preemption, a fresh slice for whoever runs.
    While expired tasks are woken the invariant holds except for who runs (Ticking), and
    the flag of the code means that some ready task outranks the running one (Beaten), even
    when waking a task lowers the priority that the running one inherited. */
module TickProofs {
  import opened Wrappers
  import opened KernelState
  import opened Sched
  import opened KernelObjects
  import opened Time
  import opened Inheritance
  import opened Placement
  import opened DelayLists
  import opened Invariants
  import opened SchedProofs
  import opened BlockProofs
  import opened StepProofs
  import opened ObjectProofs
  import opened MutexProofs

  /** The invariant while expired tasks are being woken. */
  ghost predicate Ticking(s: State) {
    && Containers(s, {}) && Delays(s, true) && AllCoherent(s.tasks)
    && Objects(s) && PoolFits(s) && PrioritiesInherited(s)
    && OneRuns(s.tasks, s.current)
  }

  /** What waking one expired task may change. */
  ghost predicate Expired(s: State, t: TaskId, r: State) {
    && r == s.(tasks := r.tasks, lists := r.lists, bitmap := r.bitmap, delayed := r.delayed)
    && (forall u: TaskId :: u != t ==> r.tasks[u] == s.tasks[u].(eff := r.tasks[u].eff))
    && IsBlocked(s.tasks[t]) && r.tasks[t].state == Ready && r.tasks[t].delayList == None && r.tasks[t].wait == None
    && r.tasks[t] == (if s.tasks[t].state == BlockedObject then Woken(s.tasks[t], Timeout) else s.tasks[t])
                     .(state := Ready, delayList := None, eff := r.tasks[t].eff)
    && (forall u: TaskId :: r.tasks[u].eff <= s.tasks[u].eff)
    && (forall u: TaskId :: r.tasks[u].eff == s.tasks[u].eff || s.tasks[u].eff <= r.tasks[t].eff)
  }

  // ----- A delayed task

  lemma ExpireDelayed(s: State, t: TaskId)
    requires Ticking(s) && s.delayed[s.px] != [] && t == s.delayed[s.px][0] && s.tasks[t].state == BlockedDelay
    ensures Ticking(ExpireHead(s)) && Expired(s, t, ExpireHead(s))
  {
    var s1 := PopDelayed(s);
    PopDelayedKeeps(s);
    var task := s.tasks[t].(delayList := None, state := Ready);
    var s2 := SetTask(s1, t, task);
    assert s2.tasks == s.tasks[t := task];
    HomelessIsFree(s, t, {});
    RetaskKeeps(s, t, task, {t});
    assert {} + {t} == {t} && {t} - {t} == {};
    assert Containers(s2, {t});
    SameDelaysKeep(s1, s2, true);
    EnqueueKeeps(s2, t, {t});
    var r := ReadyEnqueue(s2, t);
    SameDelaysKeep(s2, r, true);
    assert r == ExpireHead(s);
    DelayedObjects(s, t, r);
    DelayedExpired(s, t, r);
  }

  lemma DelayedExpired(s: State, t: TaskId, r: State)
    requires OneRuns(s.tasks, s.current) && s.tasks[t].state == BlockedDelay && Coherent(s.tasks[t])
    requires r.tasks == s.tasks[t := s.tasks[t].(delayList := None, state := Ready)]
    requires r == s.(tasks := r.tasks, lists := r.lists, bitmap := r.bitmap, delayed := r.delayed)
    ensures Expired(s, t, r) && OneRuns(r.tasks, r.current)
  {
  }

  lemma DelayedObjects(s: State, t: TaskId, r: State)
    requires Ticking(s) && s.tasks[t].state == BlockedDelay
    requires r.tasks == s.tasks[t := s.tasks[t].(delayList := None, state := Ready)]
    requires r == s.(tasks := r.tasks, lists := r.lists, bitmap := r.bitmap, delayed := r.delayed)
    requires forall k: WaitId :: At(r.lists, WaitList(k)) == At(s.lists, WaitList(k))
    ensures AllCoherent(r.tasks) && Objects(r) && PoolFits(r) && PrioritiesInherited(r)
  {
    forall u: TaskId ensures Coherent(r.tasks[u]) { assert Coherent(s.tasks[u]); }
    ObjectsTransfer(s, r);
    PoolTransfer(s, r);
    forall u: TaskId ensures WaitsFor(r, u) == WaitsFor(s, u) { }
    SameGraph(s, r);
  }

  // ----- A waiting task

  /** The state after the timed-out waiter became ready, before priorities are recomputed. */
  function TimedOut(s: State, t: TaskId): State
    requires s.delayed[s.px] != []
  {
    MakeReady(LeaveWaitList(PopDelayed(s), t), t, Timeout)
  }

  lemma TimedOutKeeps(s: State, t: TaskId)
    requires Containers(s, {}) && Delays(s, true) && AllCoherent(s.tasks)
    requires s.delayed[s.px] != [] && t == s.delayed[s.px][0] && s.tasks[t].state == BlockedObject
    ensures var r := TimedOut(s, t);
            && Containers(r, {}) && Delays(r, true)
            && r.tasks == s.tasks[t := Woken(s.tasks[t], Timeout).(delayList := None)]
            && r == s.(tasks := r.tasks, lists := r.lists, bitmap := r.bitmap, delayed := r.delayed)
            && forall k: WaitId, u: TaskId :: u in At(r.lists, WaitList(k)) <==> u in At(s.lists, WaitList(k)) && u != t
  {
    assert Coherent(s.tasks[t]);
    var s1 := PopDelayed(s);
    PopDelayedKeeps(s);
    forall u: TaskId ensures s1.tasks[u].eff == s.tasks[u].eff && Home(s1.tasks[u]) == Home(s.tasks[u]) { }
    SameHomesKeep(s, s1, {});
    var l := s.tasks[t].wait.value;
    WaitRemoveKeeps(s1, t, l, {});
    assert {} + {t} == {t} && {t} - {t} == {};
    var s2 := LeaveWaitList(s1, t);
    SameDelaysKeep(s1, s2, true);
    MakeReadyKeeps(s2, t, Timeout, {t}, true);
  }

  lemma TimedOutObjects(s: State, t: TaskId, r: State)
    requires Ticking(s) && s.tasks[t].state == BlockedObject
    requires r.tasks == s.tasks[t := Woken(s.tasks[t], Timeout).(delayList := None)]
    requires r == s.(tasks := r.tasks, lists := r.lists, bitmap := r.bitmap, delayed := r.delayed)
    ensures AllCoherent(r.tasks) && Objects(r) && PoolFits(r) && OneRuns(r.tasks, r.current)
  {
    forall u: TaskId ensures Coherent(r.tasks[u]) { assert Coherent(s.tasks[u]); }
    ObjectsTransfer(s, r);
    PoolTransfer(s, r);
  }

  lemma TimedOutGraph(s: State, t: TaskId, r: State)
    requires r.mutexes == s.mutexes && r.tasks[t].wait == None
    requires forall u: TaskId :: r.tasks[u].base == s.tasks[u].base && (u != t ==> r.tasks[u].wait == s.tasks[u].wait)
    requires forall k: WaitId, u: TaskId :: u in At(r.lists, WaitList(k)) <==> u in At(s.lists, WaitList(k)) && u != t
    ensures GraphOf(r) == GraphOf(s).(next := GraphOf(s).next[t := None])
  {
    forall u: TaskId ensures WaitsFor(r, u) == if u == t then None else WaitsFor(s, u) {
      if u != t { ServedElsewhere(s, r, t, u); }
    }
    GraphOfWaits(s, r, t, None);
  }

  /** Priorities after a waiter left: inherited again, and whoever fell stood no higher than it. */
  lemma LeftPriorities(s: State, t: TaskId, r: State)
    requires PrioritiesInherited(s) && PrioritiesInherited(r)
    requires GraphOf(r) == GraphOf(s).(next := GraphOf(s).next[t := None])
    ensures forall u: TaskId :: r.tasks[u].eff <= s.tasks[u].eff
    ensures forall u: TaskId :: r.tasks[u].eff == s.tasks[u].eff || s.tasks[u].eff <= r.tasks[t].eff
  {
    WaitingStops(GraphOf(s), GraphOf(r), t);
    assert forall u: TaskId :: Priorities(s)[u] == s.tasks[u].eff && Priorities(r)[u] == r.tasks[u].eff;
  }

  lemma ExpireMutexWaiter(s: State, t: TaskId, s2: State, r: State)
    requires Ticking(s) && s.delayed[s.px] != [] && t == s.delayed[s.px][0] && s.tasks[t].state == BlockedObject
    requires s2 == TimedOut(s, t) && r == WaitersChanged(s2)
    ensures Ticking(r) && Expired(s, t, r)
  {
    TimedOutKeeps(s, t);
    TimedOutObjects(s, t, s2);
    assert GraphOf(s2) == GraphOf(s).(next := GraphOf(s).next[t := None]) by { TimedOutGraph(s, t, s2); }
    RecomputeAfterTimeout(s, t, s2, r);
  }

  lemma RecomputeAfterTimeout(s: State, t: TaskId, s2: State, r: State)
    requires OneRuns(s.tasks, s.current) && PrioritiesInherited(s) && s.tasks[t].state == BlockedObject
    requires s2.tasks == s.tasks[t := Woken(s.tasks[t], Timeout).(delayList := None)]
    requires s2 == s.(tasks := s2.tasks, lists := s2.lists, bitmap := s2.bitmap, delayed := s2.delayed)
    requires Containers(s2, {}) && Delays(s2, true) && AllCoherent(s2.tasks) && Objects(s2) && PoolFits(s2)
    requires GraphOf(s2) == GraphOf(s).(next := GraphOf(s).next[t := None]) && r == WaitersChanged(s2)
    ensures Ticking(r) && Expired(s, t, r)
  {
    RecomputeKeeps(s2, true);
    assert (forall u: TaskId :: r.tasks[u].eff <= s.tasks[u].eff)
           && (forall u: TaskId :: r.tasks[u].eff == s.tasks[u].eff || s.tasks[u].eff <= r.tasks[t].eff) by {
      LeftPriorities(s, t, r);
    }
    MutexWaiterExpired(s, t, s2, r);
    assert OneRuns(r.tasks, r.current) by { ExpiredOneRuns(s, t, r); }
  }

  lemma ExpiredOneRuns(s: State, t: TaskId, r: State)
    requires OneRuns(s.tasks, s.current) && Expired(s, t, r)
    ensures OneRuns(r.tasks, r.current)
  {
  }

  lemma MutexWaiterExpired(s: State, t: TaskId, s2: State, r: State)
    requires s.tasks[t].state == BlockedObject
    requires s2.tasks == s.tasks[t := Woken(s.tasks[t], Timeout).(delayList := None)]
    requires s2 == s.(tasks := s2.tasks, lists := s2.lists, bitmap := s2.bitmap, delayed := s2.delayed)
    requires forall u: TaskId :: r.tasks[u] == s2.tasks[u].(eff := r.tasks[u].eff)
    requires r == s2.(tasks := r.tasks, lists := r.lists, bitmap := r.bitmap)
    requires forall u: TaskId :: r.tasks[u].eff <= s.tasks[u].eff
    requires forall u: TaskId :: r.tasks[u].eff == s.tasks[u].eff || s.tasks[u].eff <= r.tasks[t].eff
    ensures Expired(s, t, r)
  {
  }

  lemma ExpirePlainWaiter(s: State, t: TaskId)
    requires Ticking(s) && s.delayed[s.px] != [] && t == s.delayed[s.px][0] && s.tasks[t].state == BlockedObject
    requires !s.tasks[t].wait.value.MutexList?
    ensures var r := TimedOut(s, t); Ticking(r) && Expired(s, t, r)
  {
    var r := TimedOut(s, t);
    TimedOutKeeps(s, t);
    TimedOutObjects(s, t, r);
    ServePriorities(s, r, t);
  }

  lemma ExpireHeadKeeps(s: State)
    requires Ticking(s) && HeadIsDue(s)
    ensures Ticking(ExpireHead(s)) && Expired(s, s.delayed[s.px][0], ExpireHead(s))
  {
    var t := s.delayed[s.px][0];
    HeadIsDueExactly(s);
    assert Coherent(s.tasks[t]);
    if s.tasks[t].state == BlockedDelay {
      ExpireDelayed(s, t);
    } else if s.tasks[t].wait.value.MutexList? {
      ExpireMutexWaiter(s, t, TimedOut(s, t), WaitersChanged(TimedOut(s, t)));
    } else {
      ExpirePlainWaiter(s, t);
    }
  }

  // ----- The expiry loop

  /** Some ready task outranks the running one. */
  ghost predicate Beaten(s: State) {
    exists u: TaskId :: s.tasks[u].state == Ready && Outranks(s, u)
  }

  /** Once a preemption is due it stays due; while none is due the running task stays on top. */
  lemma ExpiredKeepsVerdict(s: State, t: TaskId, r: State)
    requires Expired(s, t, r) && OneRuns(s.tasks, s.current)
    ensures Beaten(s) || Outranks(r, t) ==> Beaten(r)
    ensures Highest(s) && !Outranks(r, t) ==> Highest(r)
  {
    if Outranks(r, t) { assert r.tasks[t].state == Ready; }
    if u: TaskId :| s.tasks[u].state == Ready && Outranks(s, u) {
      assert r.tasks[u].state == Ready;
      assert Outranks(r, if r.tasks[u].eff == s.tasks[u].eff then u else t);
    }
    if Highest(s) && !Outranks(r, t) {
      forall u: TaskId | r.tasks[u].state == Ready ensures r.tasks[u].eff <= r.tasks[r.current.value].eff {
        if u != t { assert s.tasks[u].state == Ready; }
      }
    }
  }

  /** Nothing but eff and the wake-up of blocked tasks differs. */
  ghost predicate Elapsed(s: State, r: State) {
    && r == s.(tasks := r.tasks, lists := r.lists, bitmap := r.bitmap, delayed := r.delayed)
    && forall u: TaskId :: (!IsBlocked(s.tasks[u]) ==> r.tasks[u] == s.tasks[u].(eff := r.tasks[u].eff))
         && r.tasks[u].eff <= s.tasks[u].eff
  }

  /** The expiry loop ends in r; w tells whether some ready task outranks the running one. */
  ghost predicate AllExpired(s: State, woke: bool, r: State, w: bool) {
    && Ticking(r) && !HeadIsDue(r) && Elapsed(s, r)
    && (w ==> Beaten(r))
    && (!w ==> !woke && (Highest(s) ==> Highest(r)))
  }

  lemma {:induction false} ExpireLoopKeeps(s: State, woke: bool)
    requires Ticking(s) && (woke ==> Beaten(s))
    ensures var (r, w) := ExpireLoop(s, woke); AllExpired(s, woke, r, w)
    decreases |s.delayed[s.px]|
  {
    if HeadIsDue(s) {
      ExpireHeadKeeps(s);
      var t := s.delayed[s.px][0];
      var s1 := ExpireHead(s);
      ExpiredKeepsVerdict(s, t, s1);
      ExpireLoopKeeps(s1, woke || Outranks(s1, t));
      OneMoreExpired(s, t, woke, s1, ExpireLoop(s, woke).0, ExpireLoop(s, woke).1);
    }
  }

  lemma OneMoreExpired(s: State, t: TaskId, woke: bool, s1: State, r: State, w: bool)
    requires Expired(s, t, s1) && OneRuns(s.tasks, s.current) && AllExpired(s1, woke || Outranks(s1, t), r, w)
    requires Highest(s) && !Outranks(s1, t) ==> Highest(s1)
    ensures AllExpired(s, woke, r, w)
  {
  }

  // ----- The whole tick

  lemma AdvanceKeeps(s: State)
    requires Inv(s)
    ensures Ticking(AdvanceClock(s)) && (Highest(s) ==> Highest(AdvanceClock(s)))
  {
    var r := AdvanceClock(s);
    AdvanceClockKeeps(s);
    forall t: TaskId ensures WaitFits(r, t) && WaitsFor(r, t) == WaitsFor(s, t) { assert WaitFits(s, t); }
    SameGraph(s, r);
  }

  lemma SliceKeepsSettled(s: State, c: TaskId, n: nat)
    requires Settled(s) && s.tasks[c].state == Running
    ensures Settled(SetTask(s, c, s.tasks[c].(slice := n)))
  {
    var r := SetTask(s, c, s.tasks[c].(slice := n));
    assert SameJobs(s.tasks, r.tasks);
    SameHomesKeep(s, r, {});
    QuietKeepsSettled(s, r);
  }

  lemma EndTickKeeps(s: State, woke: bool)
    requires Settled(s) && OneRuns(s.tasks, s.current)
    requires woke ==> Beaten(s)
    requires !woke && !s.pending ==> TopRuns(s)
    requires s.current.Some? ==> s.tasks[s.current.value].slice <= TIME_SLICE_TICKS
    ensures Inv(EndTick(s, woke))
  {
    ReadyHighestIsHighest(s);
    if (s.current == None && ReadyHighest(s) >= 0) || woke {
      PreemptAtTick(s);
    } else if s.current.Some? && s.tasks[s.current.value].slice == 0 {
      RotateAtTick(s);
    }
  }

  lemma PreemptAtTick(s: State)
    requires Settled(s) && OneRuns(s.tasks, s.current) && (s.current == None || Beaten(s))
    ensures Inv(Schedule(s, false))
  {
    ReadyHighestIsHighest(s);
    ScheduleKeeps(s, false);
    QuietKeepsSettled(s, Schedule(s, false));
    if s.current.Some? {
      var u: TaskId :| s.tasks[u].state == Ready && Outranks(s, u);
      SwitchKeeps(s, s.current.value);
    }
  }

  lemma RotateAtTick(s: State)
    requires Settled(s) && OneRuns(s.tasks, s.current) && s.current.Some? && s.tasks[s.current.value].slice == 0
    ensures Inv(EndTick(s, false))
  {
    var c := s.current.value;
    var r := Schedule(s, true);
    ScheduleKeeps(s, true);
    QuietKeepsSettled(s, r);
    if r.current == s.current {
      SliceKeepsSettled(r, c, TIME_SLICE_TICKS);
    }
  }

  lemma TickStep(s: State)
    requires Inv(s)
    ensures Inv(TimeTick(s))
  {
    AdvanceKeeps(s);
    var s0 := AdvanceClock(s);
    ExpireLoopKeeps(s0, false);
    var (s1, woke) := ExpireLoop(s0, false);
    NoneLeftBehind(s1);
    ElapsedReady(s, s0, s1, woke);
    SpendKeeps(s1, woke);
    EndTickKeeps(SpendSlice(s1), woke);
  }

  lemma ElapsedReady(s: State, s0: State, s1: State, woke: bool)
    requires Inv(s) && s0 == AdvanceClock(s) && AllExpired(s0, false, s1, woke) && Delays(s1, false)
    requires Highest(s) ==> Highest(s0)
    ensures Settled(s1) && OneRuns(s1.tasks, s1.current) && (woke ==> Beaten(s1))
    ensures !woke && !s1.pending ==> TopRuns(s1)
    ensures s1.current.Some? ==> s1.tasks[s1.current.value].slice <= TIME_SLICE_TICKS
  {
    if s.current.Some? { assert s1.tasks[s.current.value].slice == s.tasks[s.current.value].slice; }
  }

  /** The running task c used up one tick of its slice. */
  lemma SpentKeeps(s: State, c: TaskId, n: nat, r: State)
    requires s.current == Some(c) && OneRuns(s.tasks, s.current) && r == SetTask(s, c, s.tasks[c].(slice := n))
    ensures OneRuns(r.tasks, r.current) && (Beaten(s) ==> Beaten(r)) && (TopRuns(s) ==> TopRuns(r))
  {
    if u: TaskId :| s.tasks[u].state == Ready && Outranks(s, u) {
      assert r.tasks[u].state == Ready && Outranks(r, u);
    }
  }

  lemma SpendKeeps(s: State, woke: bool)
    requires Settled(s) && OneRuns(s.tasks, s.current)
    ensures var r := SpendSlice(s);
            && Settled(r) && OneRuns(r.tasks, r.current) && r.current == s.current && r.pending == s.pending
            && (Beaten(s) ==> Beaten(r)) && (TopRuns(s) ==> TopRuns(r))
            && (s.current.Some?
                ==> r.tasks[s.current.value].slice ==
                    if s.tasks[s.current.value].slice > 0 then s.tasks[s.current.value].slice - 1 else 0)
  {
    if s.current.Some? && s.tasks[s.current.value].slice > 0 {
      var c := s.current.value;
      SliceKeepsSettled(s, c, s.tasks[c].slice - 1);
      SpentKeeps(s, c, s.tasks[c].slice - 1, SpendSlice(s));
    }
  }
}
