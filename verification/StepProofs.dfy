/** Scheduling, critical sections and delays keep the invariant, and so do calls that only
    change results, buffers and kernel objects.
    A call that changes nothing but who runs is Quiet; a call that changes only results and
    object pools is covered by ObjectStep. */
module StepProofs {
  import opened Wrappers
  import opened KernelState
  import opened Sched
  import opened KernelObjects
  import opened Time
  import opened Placement
  import opened DelayLists
  import opened Invariants
  import opened SchedProofs
  import opened BlockProofs

  // ----- Scheduling

  lemma ScheduleStep(s: State, rotate: bool)
    requires Settled(s) && OneRuns(s.tasks, s.current) && SliceInRange(s)
    ensures Inv(Schedule(s, rotate)) && TopRuns(Schedule(s, rotate)) && Quiet(s, Schedule(s, rotate))
            && SameEff(s, Schedule(s, rotate))
  {
    ScheduleKeeps(s, rotate);
    QuietKeepsSettled(s, Schedule(s, rotate));
  }

  lemma YieldStep(s: State)
    requires Inv(s)
    ensures Inv(YieldCurrent(s)) && Quiet(s, YieldCurrent(s))
  {
    if CurrentRuns(s) {
      SwitchKeeps(s, s.current.value);
      QuietKeepsSettled(s, YieldCurrent(s));
    }
  }

  /** After the running task went to sleep, picking the next one restores the invariant. */
  lemma SwitchAwayStep(s: State)
    requires Settled(s) && NoneRuns(s.tasks) && s.current.Some?
    ensures var r := CurrentBlocked(s); r == PickNext(s) && Inv(r) && Highest(r) && Quiet(s, r) && SameEff(s, r)
  {
    PickNextKeeps(s);
    QuietKeepsSettled(s, PickNext(s));
  }

  lemma MaybePreemptStep(s: State, woken: TaskId)
    requires Settled(s) && OneRuns(s.tasks, s.current) && SliceInRange(s)
    requires s.pending || s.current == None || s.tasks[woken].eff > s.tasks[s.current.value].eff || TopRuns(s)
    ensures var r := MaybePreempt(s, woken); Inv(r) && Quiet(s, r) && SameEff(s, r)
  {
    if s.current.Some? && s.tasks[woken].eff <= s.tasks[s.current.value].eff {
      assert Quiet(s, s);
    } else if s.nesting > 0 {
      QuietKeepsSettled(s, s.(pending := true));
    } else {
      ScheduleStep(s, false);
    }
  }

  lemma CriticalFlags(s: State, n: Tick, pending: bool)
    requires Settled(s)
    ensures var r := s.(nesting := n, pending := pending); Settled(r) && Quiet(s, r) && SameEff(s, r)
  {
    QuietKeepsSettled(s, s.(nesting := n, pending := pending));
  }

  lemma CriticalUnfolds(s: State)
    ensures EnterCritical(s) == s.(nesting := (s.nesting + 1) % TICK_MODULUS, pending := s.pending)
    ensures ExitCritical(s) == if s.nesting == 0 then s
                               else if s.nesting == 1 && s.pending
                                 then Schedule(s.(nesting := 0, pending := false), false)
                               else s.(nesting := s.nesting - 1, pending := s.pending)
  {
  }

  lemma NestingStep(s: State, n: Tick)
    requires Inv(s)
    ensures var r := s.(nesting := n, pending := s.pending); Inv(r) && Quiet(s, r) && SameEff(s, r)
  {
    CriticalFlags(s, n, s.pending);
  }

  lemma EnterStep(s: State)
    requires Inv(s)
    ensures Inv(EnterCritical(s)) && Quiet(s, EnterCritical(s)) && SameEff(s, EnterCritical(s))
  {
    CriticalUnfolds(s);
    NestingStep(s, (s.nesting + 1) % TICK_MODULUS);
  }

  lemma PostponedSwitch(s: State)
    requires Inv(s)
    ensures var r := Schedule(s.(nesting := 0, pending := false), false);
            Inv(r) && TopRuns(r) && !r.pending && Quiet(s, r) && SameEff(s, r)
  {
    var s2 := s.(nesting := 0, pending := false);
    CriticalFlags(s, 0, false);
    ScheduleStep(s2, false);
    ScheduleKeeps(s2, false);
    QuietTrans(s, s2, Schedule(s2, false));
  }

  /** Leaving the outermost critical section makes up for the postponed switch. */
  lemma ExitStep(s: State)
    requires Inv(s)
    ensures Inv(ExitCritical(s)) && Quiet(s, ExitCritical(s)) && SameEff(s, ExitCritical(s))
    ensures s.nesting == 1 ==> !ExitCritical(s).pending && TopRuns(ExitCritical(s))
  {
    if s.nesting == 1 && s.pending {
      assert ExitCritical(s) == Schedule(s.(nesting := 0, pending := false), false) by { CriticalUnfolds(s); }
      PostponedSwitch(s);
    } else {
      var n := if s.nesting == 0 then 0 else s.nesting - 1;
      assert ExitCritical(s) == s.(nesting := n, pending := s.pending) by { CriticalUnfolds(s); }
      NestingStep(s, n);
    }
  }

  // ----- Delays

  lemma SleepSettled(s: State, c: TaskId, n: Tick)
    requires Inv(s) && s.current == Some(c) && 1 <= n <= MAX_DELAY_TICKS
    ensures Settled(Sleep(s, c, n))
  {
    SleepKeeps(s, c, n);
    SleepCoherent(s, c, n);
    var r := Sleep(s, c, n);
    ObjectsTransfer(s, r);
    assert Coherent(s.tasks[c]);
    forall t: TaskId ensures WaitsFor(r, t) == WaitsFor(s, t) {
    }
    SameGraph(s, r);
  }

  lemma DelayStep(s: State, ticks: Tick)
    requires Inv(s)
    ensures Inv(DelayCurrent(s, ticks))
  {
    if CurrentRuns(s) {
      if ticks == 0 {
        YieldStep(s);
      } else {
        var c := s.current.value;
        SleepSettled(s, c, ClampDelay(ticks));
        SleepCoherent(s, c, ClampDelay(ticks));
        SwitchAwayStep(Sleep(s, c, ClampDelay(ticks)));
      }
    }
  }

  // ----- Calls that change results, buffers and kernel objects only

  /** Only results and message buffers of tasks differ. */
  ghost predicate SameButResults(tasks: TaskPool, tasks': TaskPool) {
    forall t: TaskId :: && tasks'[t] == tasks[t].(result := tasks'[t].result, cell := tasks'[t].cell)
                        && (tasks[t].state == Unused ==> tasks'[t] == tasks[t])
  }

  lemma ResultsKeepStructure(s: State, r: State, x: set<TaskId>)
    requires Containers(s, x) && Delays(s, false) && AllCoherent(s.tasks) && SameButResults(s.tasks, r.tasks)
    requires r == s.(tasks := r.tasks, sems := r.sems, queues := r.queues, mutexes := r.mutexes)
    ensures Containers(r, x) && Delays(r, false) && AllCoherent(r.tasks)
  {
    forall t: TaskId ensures Home(r.tasks[t]) == Home(s.tasks[t]) && Coherent(r.tasks[t]) {
      assert Coherent(s.tasks[t]);
    }
    SameHomesKeep(s, r, x);
    SameDelaysKeep(s, r, false);
  }

  /** When nobody waits for somebody else than before, the inherited priorities stand. */
  lemma SameGraph(s: State, r: State)
    requires PrioritiesInherited(s)
    requires forall t: TaskId :: r.tasks[t].base == s.tasks[t].base && r.tasks[t].eff == s.tasks[t].eff
    requires forall t: TaskId :: WaitsFor(r, t) == WaitsFor(s, t)
    ensures PrioritiesInherited(r)
  {
    assert GraphOf(r).base == GraphOf(s).base;
    assert GraphOf(r).next == GraphOf(s).next;
    assert Priorities(r) == Priorities(s);
  }

  lemma ResultsKeepSettled(s: State, r: State)
    requires Settled(s) && SameButResults(s.tasks, r.tasks) && Objects(r)
    requires r == s.(tasks := r.tasks, sems := r.sems, queues := r.queues, mutexes := r.mutexes)
    requires forall t: TaskId :: WaitsFor(r, t) == WaitsFor(s, t)
    ensures Settled(r)
  {
    ResultsKeepStructure(s, r, {});
    SameGraph(s, r);
    PoolTransfer(s, r);
  }

  lemma ObjectStep(s: State, r: State)
    requires Inv(s) && SameButResults(s.tasks, r.tasks) && Objects(r)
    requires r == s.(tasks := r.tasks, sems := r.sems, queues := r.queues, mutexes := r.mutexes)
    requires forall t: TaskId :: WaitsFor(r, t) == WaitsFor(s, t)
    ensures Inv(r)
  {
    ResultsKeepSettled(s, r);
  }

  lemma SetResultSettled(s: State, c: TaskId, status: Status)
    requires Settled(s) && s.tasks[c].state == Running
    ensures Settled(SetResult(s, c, status))
  {
    var r := SetResult(s, c, status);
    ObjectsTransfer(s, r);
    forall t: TaskId ensures WaitsFor(r, t) == WaitsFor(s, t) {
    }
    ResultsKeepSettled(s, r);
  }

  lemma ResultStep(s: State, c: TaskId, status: Status)
    requires Inv(s) && s.current == Some(c)
    ensures Inv(SetResult(s, c, status))
  {
    SetResultSettled(s, c, status);
  }
}
