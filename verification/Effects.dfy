/** What one kernel step does to the tasks that are asleep: nothing, unless it serves them or
    their time has come.
    Every step is described by which waiting list it serves (Serves); the front waiter of that
    list wakes up with what it waited for, and all other sleepers keep everything but perhaps
    their inherited priority. */
module Effects {
  import opened Wrappers
  import opened KernelState
  import opened Sched
  import opened KernelObjects
  import opened Time
  import opened Placement
  import opened DelayLists
  import opened Invariants
  import opened SchedProofs
  import opened BlockProofs
  import opened StepProofs
  import opened ObjectProofs
  import opened MutexProofs
  import opened TickProofs
  import opened Setup
  import opened Machine

  /** At most the effective priority differs. */
  ghost predicate Spared(s: State, r: State, t: TaskId) {
    r.tasks[t] == s.tasks[t].(eff := r.tasks[t].eff)
  }

  /** The task woke up with success; only a receiver has got something else in its buffer. */
  ghost predicate Woke(s: State, r: State, t: TaskId) {
    && SameJob(Woken(s.tasks[t], Status.Ok).(delayList := None, cell := r.tasks[t].cell), r.tasks[t])
    && ((s.tasks[t].wait.Some? && s.tasks[t].wait.value.ReceiveList?) || r.tasks[t].cell == s.tasks[t].cell)
  }

  /** The first task of a waiting list. */
  ghost predicate InFront(s: State, t: TaskId, l: WaitId) {
    At(s.lists, WaitList(l)) != [] && At(s.lists, WaitList(l))[0] == t
  }

  /** Tasks that are neither running nor asleep keep everything but priority, slice and turn; base
      priorities never change, and after the start no task is added. */
  ghost predicate BystandersLeft(s: State, r: State) {
    && (s.started ==> r.started && r.taskCount == s.taskCount && r.idle == s.idle)
    && forall t: TaskId ::
      && (s.tasks[t].state == Ready || s.tasks[t].state == Terminated ==> SameJob(s.tasks[t], r.tasks[t]))
      && (s.tasks[t].state != Unused ==> r.tasks[t].base == s.tasks[t].base)
  }

  /** At most the front waiter of list l woke up; the other sleepers sleep on. */
  ghost predicate OnlyFront(s: State, r: State, l: WaitId) {
    && r.tick == s.tick && r.px == s.px && BystandersLeft(s, r)
    && forall t: TaskId :: IsBlocked(s.tasks[t]) ==> if InFront(s, t, l) then Woke(s, r, t) else Spared(s, r, t)
  }

  ghost predicate AllSpared(s: State, r: State) {
    && r.tick == s.tick && r.px == s.px && BystandersLeft(s, r)
    && forall t: TaskId :: IsBlocked(s.tasks[t]) ==> Spared(s, r, t)
  }

  ghost predicate SamePools(s: State, r: State) {
    r.sems == s.sems && r.queues == s.queues
  }

  lemma QuietSpares(s: State, r: State)
    requires Quiet(s, r)
    ensures AllSpared(s, r)
  {
    forall t: TaskId | IsBlocked(s.tasks[t]) ensures Spared(s, r, t) {
      assert SameJob(s.tasks[t], r.tasks[t]);
    }
  }

  lemma SparedThenQuiet(s: State, m: State, r: State)
    requires AllSpared(s, m) && Quiet(m, r)
    ensures AllSpared(s, r)
  {
    forall t: TaskId | IsBlocked(s.tasks[t]) ensures Spared(s, r, t) {
      assert Spared(s, m, t) && SameJob(m.tasks[t], r.tasks[t]);
    }
    BystandersThenQuiet(s, m, r);
  }

  lemma BystandersThenQuiet(s: State, m: State, r: State)
    requires BystandersLeft(s, m) && Quiet(m, r)
    ensures BystandersLeft(s, r)
  {
    forall t: TaskId
      ensures (s.tasks[t].state == Ready || s.tasks[t].state == Terminated ==> SameJob(s.tasks[t], r.tasks[t]))
              && (s.tasks[t].state != Unused ==> r.tasks[t].base == s.tasks[t].base)
    {
      assert s.tasks[t].state == Ready || s.tasks[t].state == Terminated ==> SameJob(s.tasks[t], m.tasks[t]);
      assert SameJob(m.tasks[t], r.tasks[t]);
    }
  }

  lemma FrontThenQuiet(s: State, m: State, r: State, l: WaitId)
    requires OnlyFront(s, m, l) && Quiet(m, r)
    ensures OnlyFront(s, r, l)
  {
    forall t: TaskId | IsBlocked(s.tasks[t]) ensures if InFront(s, t, l) then Woke(s, r, t) else Spared(s, r, t) {
      assert SameJob(m.tasks[t], r.tasks[t]);
      assert if InFront(s, t, l) then Woke(s, m, t) else Spared(s, m, t);
    }
    BystandersThenQuiet(s, m, r);
  }

  // ----- Calls that put the running task to sleep

  /** The running task now sleeps on list l; the other sleepers sleep on. */
  ghost predicate FellAsleep(s: State, l: WaitId, cell: Message, n: Tick, r: State)
    requires s.current.Some?
  {
    var c, t := s.current.value, r.tasks[s.current.value];
    && AllSpared(s, r) && SamePools(s, r) && r.mutexes == s.mutexes
    && t == Parked(s, c, l, cell, n, t.delayList).(eff := t.eff)
    && (t.delayList.Some? <==> n != WAIT_FOREVER)
    && (n != WAIT_FOREVER ==> Remaining(r, c) == n)
  }

  lemma ParkSpares(s: State, l: WaitId, cell: Message, timeout: Tick)
    requires Inv(s) && s.current.Some? && timeout != 0
    ensures FellAsleep(s, l, cell, ClampTimeout(timeout), WaitBlock(s, l, cell, timeout))
  {
    var c, n := s.current.value, ClampTimeout(timeout);
    WaitBlockUnfolds(s, l, cell, timeout);
    ParkKeeps(s, c, l, cell, n);
    ParkCoherent(s, c, l, cell, n);
    var s1 := Park(s, c, l, cell, n);
    PickNextKeeps(s1);
    ParkThenQuiet(s, c, l, cell, n, s1, WaitBlock(s, l, cell, timeout));
  }

  lemma ParkThenQuiet(s: State, c: TaskId, l: WaitId, cell: Message, n: Tick, s1: State, r: State)
    requires s.current == Some(c) && s.tasks[c].state == Running && Quiet(s1, r)
    requires s1.tasks == s.tasks[c := Parked(s, c, l, cell, n, s1.tasks[c].delayList)]
    requires s1 == s.(tasks := s1.tasks, lists := s1.lists, delayed := s1.delayed)
    requires s1.tasks[c].delayList.Some? <==> n != WAIT_FOREVER
    requires n != WAIT_FOREVER ==> Remaining(s1, c) == n
    ensures FellAsleep(s, l, cell, n, r)
  {
    SparedThenQuiet(s, s1, r);
    assert SameJob(s1.tasks[c], r.tasks[c]);
  }

  lemma DelayUnfolds(s: State, n: Tick)
    requires Inv(s) && s.current.Some? && n > 0
    ensures DelayCurrent(s, n) == PickNext(Sleep(s, s.current.value, ClampDelay(n)))
  {
    SleepKeeps(s, s.current.value, ClampDelay(n));
  }

  lemma SleepSpares(s: State, c: TaskId, n: nat, s1: State, r: State)
    requires s.tasks[c].state == Running && Quiet(s1, r) && Remaining(s1, c) == n
    requires s1.tasks ==
             s.tasks[c := s.tasks[c].(state := BlockedDelay, delayList := s1.tasks[c].delayList,
             wakeTick := s1.tasks[c].wakeTick)]
    requires s1 == s.(tasks := s1.tasks, delayed := s1.delayed)
    ensures AllSpared(s, r) && SamePools(s, r) && r.mutexes == s.mutexes
    ensures r.tasks[c].state == BlockedDelay && r.tasks[c].result == s.tasks[c].result && Remaining(r, c) == n
  {
    SparedThenQuiet(s, s1, r);
    assert SameJob(s1.tasks[c], r.tasks[c]);
  }

  lemma DelaySpares(s: State, n: Tick)
    requires Inv(s)
    ensures AllSpared(s, DelayCurrent(s, n)) && SamePools(s, DelayCurrent(s, n))
            && DelayCurrent(s, n).mutexes == s.mutexes
    ensures CurrentRuns(s) && n > 0 ==>
              DelayCurrent(s, n).tasks[s.current.value].state == BlockedDelay
                && Remaining(DelayCurrent(s, n), s.current.value) == ClampDelay(n)
  {
    if CurrentRuns(s) {
      if n == 0 {
        YieldStep(s);
        QuietSpares(s, YieldCurrent(s));
      } else {
        var c := s.current.value;
        var s1 := Sleep(s, c, ClampDelay(n));
        DelayUnfolds(s, n);
        SleepKeeps(s, c, ClampDelay(n));
        SleepCoherent(s, c, ClampDelay(n));
        PickNextKeeps(s1);
        SleepSpares(s, c, ClampDelay(n), s1, PickNext(s1));
      }
    }
  }

  lemma BoostQuiet(s: State, o: TaskId)
    requires Structure(s, {}) && Objects(s) && PoolFits(s) && OneRuns(s.tasks, s.current)
    ensures Quiet(s, BoostOwner(s, o))
  {
    RecomputeKeeps(s, false);
    var s3 := WaitersChanged(s);
    ScheduleKeeps(s3, false);
    QuietTrans(s, s3, Schedule(s3, false));
  }

  lemma LockParks(s: State, m: MutexId, timeout: Tick)
    requires Inv(s) && CurrentRuns(s) && !IsIdle(s.tasks[s.current.value]) && timeout != 0
    requires s.mutexes[m].used && s.mutexes[m].owner.Some? && s.mutexes[m].owner != s.current
    ensures AllSpared(s, LockCurrent(s, Some(m), timeout)) && SamePools(s, LockCurrent(s, Some(m), timeout))
  {
    var l, cell, r := MutexList(m), s.tasks[s.current.value].cell, LockCurrent(s, Some(m), timeout);
    var s2 := WaitBlock(s, l, cell, timeout);
    assert Quiet(s2, r) by { LockQuietly(s, m, timeout); }
    assert AllSpared(s, s2) && SamePools(s, s2) by { ParkSpares(s, l, cell, timeout); }
    SparedThenQuiet(s, s2, r);
  }

  lemma LockQuietly(s: State, m: MutexId, timeout: Tick)
    requires Inv(s) && CurrentRuns(s) && !IsIdle(s.tasks[s.current.value]) && timeout != 0
    requires s.mutexes[m].used && s.mutexes[m].owner.Some? && s.mutexes[m].owner != s.current
    ensures Quiet(WaitBlock(s, MutexList(m), s.tasks[s.current.value].cell, timeout), LockCurrent(s, Some(m), timeout))
  {
    BlockedOnMutex(s, m, timeout);
    BoostQuiet(WaitBlock(s, MutexList(m), s.tasks[s.current.value].cell, timeout), s.mutexes[m].owner.value);
    LockIs(s, m, timeout);
  }

  lemma LockSpares(s: State, m: Option<MutexId>, timeout: Tick)
    requires Inv(s) && Allowed(s, Op.Lock(m, timeout))
    ensures AllSpared(s, LockCurrent(s, m, timeout)) && SamePools(s, LockCurrent(s, m, timeout))
  {
    if CurrentRuns(s) && MutexIsValid(s, m) && s.mutexes[m.value].owner.Some? && s.mutexes[m.value].owner != s.current
      && timeout != 0 {
      LockParks(s, m.value, timeout);
    }
  }

  // ----- Calls that serve the front waiter

  /** The step hands something to the front waiter of list l. */
  predicate Serves(s: State, op: Op, l: WaitId) {
    match op
    case Give(i) => CurrentRuns(s) && SemIsValid(s, i) && l == SemList(i.value)
    case GiveIsr(i) => SemIsValid(s, i) && l == SemList(i.value)
    case Send(i, item, _) => CurrentRuns(s) && QueueIsValid(s, i) && item.Some? && l == ReceiveList(i.value)
    case Receive(i, out, _) => CurrentRuns(s) && QueueIsValid(s, i) && out && s.queues[i.value].count > 0
      && l == SendList(i.value)
    case Unlock(m) => CurrentRuns(s) && MutexIsValid(s, m) && s.mutexes[m.value].owner == s.current
      && l == MutexList(m.value)
    case Exit => CurrentRuns(s) && l.MutexList? && s.mutexes[l.mutex].used && s.mutexes[l.mutex].owner == s.current
    case _ => false
  }

  ghost predicate ServedBy(s: State, op: Op, t: TaskId) {
    s.tasks[t].wait.Some? && Serves(s, op, s.tasks[t].wait.value) && InFront(s, t, s.tasks[t].wait.value)
  }

  /** What t waited for has become its own. */
  ghost predicate Transferred(s: State, op: Op, r: State, t: TaskId) {
    match s.tasks[t].wait
    case Some(MutexList(m)) => r.mutexes[m].owner == Some(t)
    case Some(SemList(i)) => r.sems == s.sems
    case Some(ReceiveList(q)) => op.Send? && op.item.Some? && r.tasks[t].cell == op.item.value && r.queues == s.queues
    case Some(SendList(q)) =>
      && s.queues[q].capacity > 0 && s.queues[q].count > 0 && s.queues[q].tail < |s.queues[q].buffer|
      && r.queues[q] == RingPut(RingDrop(s.queues[q]), s.tasks[t].cell)
    case None => false
  }

  /** The sleepers of s that the step serves wake up with what they waited for; all others sleep on. */
  ghost predicate Effect(s: State, op: Op, r: State) {
    && r.tick == s.tick && r.px == s.px && BystandersLeft(s, r)
    && forall t: TaskId :: IsBlocked(s.tasks[t]) ==>
         if ServedBy(s, op, t) then Woke(s, r, t) && Transferred(s, op, r, t) else Spared(s, r, t)
  }

  lemma FrontWaits(s: State, l: WaitId)
    requires Containers(s, {}) && At(s.lists, WaitList(l)) != []
    ensures var w := At(s.lists, WaitList(l))[0]; s.tasks[w].state == BlockedObject && s.tasks[w].wait == Some(l)
    ensures WaitPop(s, l).1 == Some(At(s.lists, WaitList(l))[0])
  {
    assert At(s.lists, WaitList(l))[0] in At(s.lists, WaitList(l));
  }

  lemma FrontEffect(s: State, op: Op, r: State, l: WaitId)
    requires Inv(s) && OnlyFront(s, r, l) && (forall k: WaitId :: Serves(s, op, k) <==> k == l)
    requires At(s.lists, WaitList(l)) != [] ==> Transferred(s, op, r, At(s.lists, WaitList(l))[0])
    ensures Effect(s, op, r)
  {
    if At(s.lists, WaitList(l)) != [] { FrontWaits(s, l); }
  }

  lemma SparedEffect(s: State, op: Op, r: State)
    requires AllSpared(s, r) && forall t: TaskId :: !ServedBy(s, op, t)
    ensures Effect(s, op, r)
  {
  }

  /** Serving w and then letting it preempt; the result r keeps what the serving did. */
  lemma ServeEffect(s: State, l: WaitId, s1: State, w: TaskId, c: TaskId, r: State)
    requires Inv(s) && WaitPop(s, l).1 == Some(w) && s.tasks[c].state == Running
    requires var p := WaitPop(s, l).0;
             SameButResults(p.tasks, s1.tasks)
               && s1 == p.(tasks := s1.tasks, sems := s1.sems, queues := s1.queues, mutexes := s1.mutexes)
    requires forall t: TaskId :: t != w && t != c ==> s1.tasks[t] == s.tasks[t]
    requires l.ReceiveList? || s1.tasks[w].cell == s.tasks[w].cell
    requires Quiet(MakeReady(s1, w, Status.Ok), r)
    ensures OnlyFront(s, r, l)
    ensures s1.tasks[c].state == s.tasks[c].state && (Runnable(s.tasks[c].state) ==> Runnable(r.tasks[c].state))
    ensures r.tasks[w].cell == s1.tasks[w].cell && SameJob(s1.tasks[c], r.tasks[c])
    ensures r.sems == s1.sems && r.queues == s1.queues && r.mutexes == s1.mutexes
  {
    ServeKeeps(s, l, s1, w);
    var m := MakeReady(s1, w, Status.Ok);
    assert OnlyFront(s, m, l) by {
      FrontWaits(s, l);
      ServedFront(s, l, s1, w, c, m);
    }
    FrontThenQuiet(s, m, r, l);
    assert SameJob(m.tasks[w], r.tasks[w]) && SameJob(m.tasks[c], r.tasks[c]);
  }

  lemma ServedFront(s: State, l: WaitId, s1: State, w: TaskId, c: TaskId, m: State)
    requires InFront(s, w, l) && s.tasks[w].state == BlockedObject && s.tasks[w].wait == Some(l)
    requires s.tasks[c].state == Running && forall t: TaskId :: t != w && t != c ==> s1.tasks[t] == s.tasks[t]
    requires SameButResults(s.tasks, s1.tasks) && (l.ReceiveList? || s1.tasks[w].cell == s.tasks[w].cell)
    requires m.tasks == s1.tasks[w := Woken(s1.tasks[w], Status.Ok).(delayList := None)]
    requires m.tick == s.tick && m.px == s.px
    requires m.started == s.started && m.taskCount == s.taskCount && m.idle == s.idle
    ensures OnlyFront(s, m, l)
  {
  }

  // ----- Semaphores

  lemma TakeSpares(s: State, i: Option<SemId>, timeout: Tick)
    requires Inv(s)
    ensures AllSpared(s, TakeCurrent(s, i, timeout))
  {
    if CurrentRuns(s) && SemIsValid(s, i) && s.sems[i.value].count == 0 && timeout != 0 {
      ParkSpares(s, SemList(i.value), s.tasks[s.current.value].cell, timeout);
    }
  }

  lemma GiveServesEffect(s: State, i: SemId, w: TaskId)
    requires Inv(s) && WaitPop(s, SemList(i)).1 == Some(w)
    ensures var r := MakeReady(WaitPop(s, SemList(i)).0, w, Status.Ok);
              OnlyFront(s, r, SemList(i)) && r.sems == s.sems && r.queues == s.queues
  {
    var p := WaitPop(s, SemList(i)).0;
    assert SameButResults(p.tasks, p.tasks);
    ServeKeeps(s, SemList(i), p, w);
  }

  lemma GiveAnyEffect(s: State, i: SemId)
    requires Inv(s) && SemIsValid(s, Some(i))
    ensures var r := GiveAny(s, Some(i)).0; OnlyFront(s, r, SemList(i)) && r.queues == s.queues
    ensures GiveAny(s, Some(i)).2.Some? ==> GiveAny(s, Some(i)).0.sems == s.sems
    ensures GiveAny(s, Some(i)).2 == WaitPop(s, SemList(i)).1
  {
    var w := WaitPop(s, SemList(i)).1;
    if w.Some? { GiveServesEffect(s, i, w.value); }
  }

  lemma SemFrontEffect(s: State, op: Op, i: SemId, m: State, r: State)
    requires Inv(s) && SemIsValid(s, Some(i)) && (forall k: WaitId :: Serves(s, op, k) <==> k == SemList(i))
    requires OnlyFront(s, m, SemList(i)) && Quiet(m, r) && (WaitPop(s, SemList(i)).1.Some? ==> m.sems == s.sems)
    ensures Effect(s, op, r)
  {
    var l := SemList(i);
    FrontThenQuiet(s, m, r, l);
    if At(s.lists, WaitList(l)) != [] { FrontWaits(s, l); }
    FrontEffect(s, op, r, l);
  }

  lemma GiveServesCurrent(s: State, i: SemId)
    requires Inv(s) && CurrentRuns(s) && SemIsValid(s, Some(i))
    ensures var (s1, status, w) := GiveAny(s, Some(i));
            var s2 := SetResult(s1, s.current.value, status);
            OnlyFront(s, s2, SemList(i)) && Quiet(s2, GiveCurrent(s, Some(i)))
  {
    GaveQuietly(s, Some(i));
    assert OnlyFront(s, GiveAny(s, Some(i)).0, SemList(i)) by { GiveAnyEffect(s, i); }
  }

  lemma GaveQuietly(s: State, i: Option<SemId>)
    requires Inv(s) && CurrentRuns(s)
    ensures Quiet(SetResult(GiveAny(s, i).0, s.current.value, GiveAny(s, i).1), GiveCurrent(s, i))
  {
    GiveAnySettled(s, i);
    GaveStep(s.current.value, GiveAny(s, i).0, GiveAny(s, i).1, GiveAny(s, i).2);
  }

  lemma GiveEffect(s: State, i: Option<SemId>)
    requires Inv(s)
    ensures Effect(s, Op.Give(i), GiveCurrent(s, i))
  {
    if CurrentRuns(s) && SemIsValid(s, i) {
      GiveServesCurrent(s, i.value);
      GiveAnyEffect(s, i.value);
      var (s1, status, w) := GiveAny(s, i);
      SemFrontEffect(s, Op.Give(i), i.value, SetResult(s1, s.current.value, status), GiveCurrent(s, i));
    } else {
      SparedEffect(s, Op.Give(i), GiveCurrent(s, i));
    }
  }

  lemma GiveIsrTail(s1: State, w: Option<TaskId>)
    requires if w.Some? then Settled(s1) && OneRuns(s1.tasks, s1.current) && SliceInRange(s1)
             && ReadyToPreempt(s1, w.value) else Inv(s1)
    ensures Quiet(s1, ExitCritical(if w.Some? then MaybePreempt(s1, w.value) else s1))
  {
    if w.Some? {
      MaybePreemptStep(s1, w.value);
      ExitStep(MaybePreempt(s1, w.value));
      QuietTrans(s1, MaybePreempt(s1, w.value), ExitCritical(MaybePreempt(s1, w.value)));
    } else {
      ExitStep(s1);
    }
  }

  lemma GiveIsrEffect(s: State, i: Option<SemId>)
    requires Inv(s)
    ensures Effect(s, Op.GiveIsr(i), GiveFromIsr(s, i))
  {
    var s0, r := EnterCritical(s), GiveFromIsr(s, i);
    GiveIsrQuietly(s, i);
    if SemIsValid(s, i) {
      var m := GiveAny(s0, i).0;
      assert OnlyFront(s, m, SemList(i.value)) && (WaitPop(s, SemList(i.value)).1.Some? ==> m.sems == s.sems) by {
        EnterStep(s);
        GiveAnyEffect(s0, i.value);
        SameFront(s, s0, m, SemList(i.value));
      }
      SemFrontEffect(s, Op.GiveIsr(i), i.value, m, r);
    } else {
      QuietSpares(s0, r);
      SparedEffect(s, Op.GiveIsr(i), r);
    }
  }

  lemma SameFront(s: State, s0: State, m: State, l: WaitId)
    requires s0 == s.(nesting := s0.nesting) && OnlyFront(s0, m, l)
    ensures OnlyFront(s, m, l)
  {
  }

  lemma GiveIsrQuietly(s: State, i: Option<SemId>)
    requires Inv(s)
    ensures Quiet(GiveAny(EnterCritical(s), i).0, GiveFromIsr(s, i))
  {
    EnterStep(s);
    GiveAnySettled(EnterCritical(s), i);
    GiveIsrTail(GiveAny(EnterCritical(s), i).0, GiveAny(EnterCritical(s), i).2);
  }

  // ----- Queues

  lemma SendDirectEffect(s: State, i: QueueId, item: Message)
    requires Inv(s) && CurrentRuns(s) && WaitPop(s, ReceiveList(i)).1.Some?
    ensures var (w, c) := (WaitPop(s, ReceiveList(i)).1.value, s.current.value);
            var r := Serve(Delivery(s, i, item), w);
            && OnlyFront(s, r, ReceiveList(i)) && r.tasks[w].cell == item && r.tasks[c].result == Status.Ok
            && Runnable(r.tasks[c].state) && r.queues == s.queues && r.sems == s.sems && r.mutexes == s.mutexes
            && SameJob(s.tasks[c].(result := Status.Ok), r.tasks[c])
  {
    var l := ReceiveList(i);
    var (s1, w) := WaitPop(s, l);
    WaitPopTakes(s, l, {});
    SendDirect(s, i, item);
    var s2 := Delivery(s, i, item);
    DeliveryChanges(s, i, item, s1, w.value, s2);
    ServeEffect(s, l, s2, w.value, s.current.value, Serve(s2, w.value));
  }

  lemma DeliveryChanges(s: State, i: QueueId, item: Message, p: State, w: TaskId, r: State)
    requires CurrentRuns(s) && WaitPop(s, ReceiveList(i)) == (p, Some(w)) && r == Delivery(s, i, item)
    requires s.tasks[w].state == BlockedObject
    ensures SameButResults(p.tasks, r.tasks) && r == p.(tasks := r.tasks)
    ensures r.tasks[w].cell == item && r.tasks[s.current.value].result == Status.Ok
    ensures forall t: TaskId :: t != w && t != s.current.value ==> r.tasks[t] == s.tasks[t]
  {
  }

  lemma SendUnfolds(s: State, i: QueueId, item: Message, timeout: Tick)
    requires CurrentRuns(s) && QueueIsValid(s, Some(i))
    ensures var c, q, w := s.current.value, s.queues[i], WaitPop(s, ReceiveList(i)).1;
            SendCurrent(s, Some(i), Some(item), timeout) ==
            if w.Some? then Serve(Delivery(s, i, item), w.value)
            else if q.count < q.capacity then SetResult(SetQueue(s, i, RingPut(q, item)), c, Status.Ok)
            else if timeout == 0 then SetResult(s, c, Timeout)
            else WaitBlock(s, SendList(i), item, timeout)
  {
  }

  predicate SendHandsOver(s: State, i: Option<QueueId>, item: Option<Message>) {
    CurrentRuns(s) && QueueIsValid(s, i) && item.Some? && At(s.lists, WaitList(ReceiveList(i.value))) != []
  }

  lemma SendServes(s: State, i: QueueId, item: Message, timeout: Tick, r: State)
    requires Inv(s) && SendHandsOver(s, Some(i), Some(item)) && OnlyFront(s, r, ReceiveList(i)) && r.queues == s.queues
    requires r.tasks[At(s.lists, WaitList(ReceiveList(i)))[0]].cell == item
    ensures Effect(s, Op.Send(Some(i), Some(item), timeout), r)
  {
    FrontWaits(s, ReceiveList(i));
    FrontEffect(s, Op.Send(Some(i), Some(item), timeout), r, ReceiveList(i));
  }

  lemma SendSpares(s: State, i: Option<QueueId>, item: Option<Message>, timeout: Tick)
    requires Inv(s) && !SendHandsOver(s, i, item)
    ensures AllSpared(s, SendCurrent(s, i, item, timeout))
  {
    if CurrentRuns(s) && QueueIsValid(s, i) && item.Some? {
      SendUnfolds(s, i.value, item.value, timeout);
      if s.queues[i.value].count == s.queues[i.value].capacity && timeout != 0 {
        ParkSpares(s, SendList(i.value), item.value, timeout);
      }
    }
  }

  lemma SendEffect(s: State, i: Option<QueueId>, item: Option<Message>, timeout: Tick)
    requires Inv(s)
    ensures Effect(s, Op.Send(i, item, timeout), SendCurrent(s, i, item, timeout))
  {
    if SendHandsOver(s, i, item) {
      FrontWaits(s, ReceiveList(i.value));
      SendUnfolds(s, i.value, item.value, timeout);
      SendDirectEffect(s, i.value, item.value);
      SendServes(s, i.value, item.value, timeout, SendCurrent(s, i, item, timeout));
    } else {
      SendSpares(s, i, item, timeout);
      SparedEffect(s, Op.Send(i, item, timeout), SendCurrent(s, i, item, timeout));
    }
  }

  lemma RefillEffect(s: State, i: QueueId)
    requires Inv(s) && CurrentRuns(s) && QueueIsValid(s, Some(i)) && s.queues[i].count > 0
             && WaitPop(s, SendList(i)).1.Some?
    ensures var (w, q, c) := (WaitPop(s, SendList(i)).1.value, s.queues[i], s.current.value);
            var r := Serve(Refill(s, i, w), w);
            && OnlyFront(s, r, SendList(i)) && r.queues == s.queues[i := RingPut(RingDrop(q), s.tasks[w].cell)]
               && r.sems == s.sems && r.mutexes == s.mutexes
            && r.tasks[c].cell == q.buffer[q.head] && r.tasks[c].result == Status.Ok && Runnable(r.tasks[c].state)
            && SameJob(s.tasks[c].(cell := q.buffer[q.head], result := Status.Ok), r.tasks[c])
  {
    var l := SendList(i);
    var (p, w) := WaitPop(s, l);
    var s4 := Refill(s, i, w.value);
    assert s.tasks[w.value].state == BlockedObject by { WaitPopTakes(s, l, {}); }
    RefillChanges(s, i, w.value, p, s4);
    assert Quiet(MakeReady(s4, w.value, Status.Ok), Serve(s4, w.value)) by { ReceiveAndRefill(s, i); }
    ServeEffect(s, l, s4, w.value, s.current.value, Serve(s4, w.value));
  }

  predicate ReceiveWorks(s: State, i: Option<QueueId>, out: bool) {
    CurrentRuns(s) && QueueIsValid(s, i) && out && s.queues[i.value].count > 0
  }

  lemma ReceiveRefused(s: State, i: Option<QueueId>, out: bool, timeout: Tick)
    requires Inv(s) && !ReceiveWorks(s, i, out)
    ensures var r := ReceiveCurrent(s, i, out, timeout); AllSpared(s, r)
  {
    if CurrentRuns(s) && QueueIsValid(s, i) && out && timeout != 0 {
      ParkSpares(s, ReceiveList(i.value), s.tasks[s.current.value].cell, timeout);
    }
  }

  lemma ReceiveServes(s: State, i: QueueId, timeout: Tick, r: State)
    requires Inv(s) && ReceiveWorks(s, Some(i), true) && At(s.lists, WaitList(SendList(i))) != []
             && OnlyFront(s, r, SendList(i))
    requires r.queues ==
             s.queues[i := RingPut(RingDrop(s.queues[i]), s.tasks[At(s.lists, WaitList(SendList(i)))[0]].cell)]
    ensures Effect(s, Op.Receive(Some(i), true, timeout), r)
  {
    FrontWaits(s, SendList(i));
    FrontEffect(s, Op.Receive(Some(i), true, timeout), r, SendList(i));
  }

  lemma ReceiveDrops(s: State, i: QueueId, timeout: Tick)
    requires Inv(s) && ReceiveWorks(s, Some(i), true) && WaitPop(s, SendList(i)).1 == None
    ensures AllSpared(s, ReceiveCurrent(s, Some(i), true, timeout))
  {
    ReceiveUnfolds(s, i, timeout);
  }

  lemma ReceiveEffect(s: State, i: Option<QueueId>, out: bool, timeout: Tick)
    requires Inv(s)
    ensures Effect(s, Op.Receive(i, out, timeout), ReceiveCurrent(s, i, out, timeout))
  {
    if !ReceiveWorks(s, i, out) {
      ReceiveRefused(s, i, out, timeout);
      SparedEffect(s, Op.Receive(i, out, timeout), ReceiveCurrent(s, i, out, timeout));
    } else if WaitPop(s, SendList(i.value)).1.Some? {
      FrontWaits(s, SendList(i.value));
      ReceiveUnfolds(s, i.value, timeout);
      RefillEffect(s, i.value);
      ReceiveServes(s, i.value, timeout, ReceiveCurrent(s, i, out, timeout));
    } else {
      ReceiveDrops(s, i.value, timeout);
      SparedEffect(s, Op.Receive(i, out, timeout), ReceiveCurrent(s, i, out, timeout));
    }
  }

  // ----- Mutexes

  lemma UnlockPassesEffect(s: State, m: MutexId)
    requires Inv(s) && CurrentRuns(s) && s.mutexes[m].used && s.mutexes[m].owner == s.current && PassOn(s, m).1.Some?
    ensures var r := UnlockCurrent(s, Some(m)); OnlyFront(s, r, MutexList(m)) && r.mutexes[m].owner == PassOn(s, m).1
    ensures UnlockCurrent(s, Some(m)).sems == s.sems && UnlockCurrent(s, Some(m)).queues == s.queues
  {
    var w := PassOn(s, m).1.value;
    var s1 := SetResult(PassOn(s, m).0, s.current.value, Status.Ok);
    var d := MakeReady(WaitersChanged(s1), w, Status.Ok);
    var r := UnlockCurrent(s, Some(m));
    UnlockHandsOver(s, m, w, s1, r);
    DeliveredFront(s, m, w, s1, d);
    FrontThenQuiet(s, d, r, MutexList(m));
  }

  lemma UnlockHandsOver(s: State, m: MutexId, w: TaskId, s1: State, r: State)
    requires Inv(s) && CurrentRuns(s) && s.mutexes[m].used && s.mutexes[m].owner == s.current
    requires PassOn(s, m).1 == Some(w) && s1 == SetResult(PassOn(s, m).0, s.current.value, Status.Ok)
    requires r == UnlockCurrent(s, Some(m))
    ensures w != s.current.value && Delivered(s1, w, MakeReady(WaitersChanged(s1), w, Status.Ok))
    ensures Quiet(MakeReady(WaitersChanged(s1), w, Status.Ok), r)
  {
    var d := MakeReady(WaitersChanged(s1), w, Status.Ok);
    assert Delivered(s1, w, d) && w != s.current.value by { PassedOn(s, m, w); Deliver(s1, w); }
    assert Quiet(d, r) by { HandOff(s, m, w, s1, d); MaybePreemptStep(d, w); }
  }

  lemma DeliveredFront(s: State, m: MutexId, w: TaskId, s1: State, d: State)
    requires Structure(s, {}) && CurrentRuns(s) && PassOn(s, m).1 == Some(w)
    requires s1 == SetResult(PassOn(s, m).0, s.current.value, Status.Ok) && Delivered(s1, w, d)
    ensures OnlyFront(s, d, MutexList(m))
  {
    FrontWaits(s, MutexList(m));
  }

  predicate UnlockWorks(s: State, m: Option<MutexId>) {
    CurrentRuns(s) && MutexIsValid(s, m) && s.mutexes[m.value].owner == s.current
  }

  lemma UnlockRefused(s: State, m: Option<MutexId>)
    requires !UnlockWorks(s, m)
    ensures AllSpared(s, UnlockCurrent(s, m)) && UnlockCurrent(s, m).sems == s.sems
            && UnlockCurrent(s, m).queues == s.queues
  {
  }

  lemma UnlockServes(s: State, m: MutexId, r: State)
    requires Inv(s) && UnlockWorks(s, Some(m)) && At(s.lists, WaitList(MutexList(m))) != []
             && OnlyFront(s, r, MutexList(m))
    requires r.mutexes[m].owner == Some(At(s.lists, WaitList(MutexList(m)))[0])
    ensures Effect(s, Op.Unlock(Some(m)), r)
  {
    FrontWaits(s, MutexList(m));
    FrontEffect(s, Op.Unlock(Some(m)), r, MutexList(m));
  }

  lemma UnlockEffect(s: State, m: Option<MutexId>)
    requires Inv(s)
    ensures Effect(s, Op.Unlock(m), UnlockCurrent(s, m))
  {
    if !UnlockWorks(s, m) {
      UnlockRefused(s, m);
      SparedEffect(s, Op.Unlock(m), UnlockCurrent(s, m));
    } else if PassOn(s, m.value).1.Some? {
      FrontWaits(s, MutexList(m.value));
      UnlockPassesEffect(s, m.value);
      UnlockServes(s, m.value, UnlockCurrent(s, m));
    } else {
      UnlockFreeEffect(s, m.value);
      UnlockSparesAll(s, m, UnlockCurrent(s, m));
    }
  }

  lemma UnlockSparesAll(s: State, m: Option<MutexId>, r: State)
    requires AllSpared(s, r) && UnlockWorks(s, m) && PassOn(s, m.value).1 == None
    ensures Effect(s, Op.Unlock(m), r)
  {
    SparedEffect(s, Op.Unlock(m), r);
  }

  lemma UnlockPools(s: State, m: Option<MutexId>)
    requires Inv(s)
    ensures UnlockCurrent(s, m).sems == s.sems && UnlockCurrent(s, m).queues == s.queues
  {
    if !UnlockWorks(s, m) {
      UnlockRefused(s, m);
    } else if PassOn(s, m.value).1.Some? {
      UnlockPassesEffect(s, m.value);
    } else {
      UnlockFreeEffect(s, m.value);
    }
  }

  lemma UnlockFreeEffect(s: State, m: MutexId)
    requires Inv(s) && CurrentRuns(s) && s.mutexes[m].used && s.mutexes[m].owner == s.current && PassOn(s, m).1 == None
    ensures var r := UnlockCurrent(s, Some(m)); AllSpared(s, r) && r.sems == s.sems && r.queues == s.queues
  {
    UnlockFreeQuiet(s, m);
    UnlockFreeSpares(s, m, SetResult(PassOn(s, m).0, s.current.value, Status.Ok), UnlockCurrent(s, Some(m)));
  }

  lemma UnlockFreeSpares(s: State, m: MutexId, s1: State, r: State)
    requires CurrentRuns(s) && s1 == SetResult(PassOn(s, m).0, s.current.value, Status.Ok) && PassOn(s, m).1 == None
             && Quiet(s1, r)
    ensures AllSpared(s, r) && r.sems == s.sems && r.queues == s.queues
  {
    SparedThenQuiet(s, s1, r);
  }

  lemma UnlockFreeQuiet(s: State, m: MutexId)
    requires Inv(s) && CurrentRuns(s) && s.mutexes[m].used && s.mutexes[m].owner == s.current && PassOn(s, m).1 == None
    ensures var s1 := SetResult(PassOn(s, m).0, s.current.value, Status.Ok);
            UnlockCurrent(s, Some(m)) == WaitersChanged(s1) && Quiet(s1, WaitersChanged(s1)) && Inv(s1)
  {
    UnlockFreeInv(s, m);
    RecomputeQuiet(SetResult(PassOn(s, m).0, s.current.value, Status.Ok));
  }

  // ----- Termination

  /** The step takes mutex m away from task c, at least if m is k or above. */
  predicate Releases(s: State, c: TaskId, m: MutexId, k: nat) {
    m >= k && s.mutexes[m].used && s.mutexes[m].owner == Some(c)
  }

  ghost predicate HeirFrom(s: State, c: TaskId, t: TaskId, k: nat) {
    && s.tasks[t].wait.Some? && s.tasks[t].wait.value.MutexList?
    && Releases(s, c, s.tasks[t].wait.value.mutex, k) && InFront(s, t, s.tasks[t].wait.value)
  }

  ghost predicate ReleaseEffect(s: State, c: TaskId, k: nat, r: State) {
    && r.tick == s.tick && r.px == s.px && r.sems == s.sems && r.queues == s.queues
    && r.started == s.started && r.taskCount == s.taskCount && r.idle == s.idle
    && (forall m: MutexId ::
          r.mutexes[m] ==
          if Releases(s, c, m, k) then s.mutexes[m].(owner := WaitPop(s, MutexList(m)).1) else s.mutexes[m])
    && forall t: TaskId ::
         if IsBlocked(s.tasks[t]) && HeirFrom(s, c, t, k)
         then r.tasks[t] == Woken(s.tasks[t], Status.Ok).(delayList := None)
           && r.mutexes[s.tasks[t].wait.value.mutex].owner == Some(t)
         else r.tasks[t] == s.tasks[t]
  }

  lemma ReleaseOneEffect(s: State, c: TaskId, k: MutexId, r: State)
    requires Orderly(s, c) && ReleaseEffect(ReleaseOne(s, c, k), c, k + 1, r)
    ensures ReleaseEffect(s, c, k, r)
  {
    if Owns(s, c, k) {
      var (s1, w) := PassOn(s, k);
      if w.Some? {
        PassOnServes(s, c, k, w.value);
        ReleaseOneMore(s, c, k, w.value, MakeReady(s1, w.value, Status.Ok), r);
      }
    }
  }

  lemma {:induction false} ReleaseFromEffect(s: State, c: TaskId, k: nat)
    requires Orderly(s, c)
    ensures ReleaseEffect(s, c, k, ReleaseFrom(s, c, k))
    decreases MAX_MUTEXES - k
  {
    if k < MAX_MUTEXES {
      ReleaseOneKeeps(s, c, k);
      ReleaseFromEffect(ReleaseOne(s, c, k), c, k + 1);
      ReleaseOneEffect(s, c, k, ReleaseFrom(s, c, k));
    }
  }

  lemma ReleaseOneMore(s: State, c: TaskId, k: MutexId, w: TaskId, s2: State, r: State)
    requires Orderly(s, c) && Releases(s, c, k, k) && WaitPop(s, MutexList(k)).1 == Some(w) && w != c
    requires s.tasks[w].state == BlockedObject && s.tasks[w].wait == Some(MutexList(k))
    requires s2.tasks == s.tasks[w := Woken(s.tasks[w], Status.Ok).(delayList := None)]
    requires s2 == s.(tasks := s2.tasks, lists := s2.lists, bitmap := s2.bitmap, delayed := s2.delayed,
                      mutexes := s.mutexes[k := s.mutexes[k].(owner := Some(w))])
    requires forall l: WaitId :: l != MutexList(k) ==> At(s2.lists, WaitList(l)) == At(s.lists, WaitList(l))
    requires ReleaseEffect(s2, c, k + 1, r)
    ensures ReleaseEffect(s, c, k, r)
  {
    forall m: MutexId ensures Releases(s, c, m, k) <==> m == k || Releases(s2, c, m, k + 1) { }
    forall t: TaskId | t != w ensures HeirFrom(s, c, t, k) <==> HeirFrom(s2, c, t, k + 1) { }
    assert HeirFrom(s, c, w, k) && !HeirFrom(s2, c, w, k + 1);
  }

  lemma ReleaseTaskQuiet(s: State, c: TaskId)
    requires Inv(s) && s.current == Some(c)
    ensures ReleaseEffect(s, c, 0, ReleaseFrom(s, c, 0)) && Quiet(ReleaseFrom(s, c, 0), ReleaseTask(s, c))
  {
    ReleaseFromKeeps(s, c, 0);
    ReleaseFromEffect(s, c, 0);
    MaybeRecomputed(s, c, ReleaseFrom(s, c, 0), ReleaseTask(s, c));
  }

  lemma MaybeRecomputed(s: State, c: TaskId, s1: State, r: State)
    requires Orderly(s1, c) && s1 == ReleaseFrom(s, c, 0) && r == ReleaseTask(s, c)
    ensures Quiet(s1, r)
  {
    if exists m: MutexId :: Owns(s, c, m) { RecomputeKeeps(s1, false); } else { QuietSelf(s1); }
  }

  lemma QuietSelf(s: State)
    ensures Quiet(s, s)
  {
  }

  /** Each mutex of c went to its front waiter or is free; the other mutexes are as before. */
  ghost predicate Inherits(s: State, c: TaskId, r: State) {
    forall m: MutexId ::
      r.mutexes[m] == if Owns(s, c, m) then s.mutexes[m].(owner := WaitPop(s, MutexList(m)).1) else s.mutexes[m]
  }

  lemma ExitChain(s: State, c: TaskId, s1: State, s2: State, r: State)
    requires Inv(s) && s.current == Some(c) && ReleaseEffect(s, c, 0, s1) && Quiet(s1, s2)
    requires Quiet(SetTask(s2, c, s2.tasks[c].(state := Terminated)), r)
    ensures Effect(s, Op.Exit, r) && r.sems == s.sems && r.queues == s.queues
    ensures Inherits(s, c, r) && r.tasks[c].state == Terminated
  {
    var s3 := SetTask(s2, c, s2.tasks[c].(state := Terminated));
    assert BystandersLeft(s, r) by { ExitBystanders(s, c, s1, s2, s3, r); }
    forall t: TaskId | IsBlocked(s.tasks[t])
      ensures if ServedBy(s, Op.Exit, t) then Woke(s, r, t) && Transferred(s, Op.Exit, r, t) else Spared(s, r, t)
    {
      assert ServedBy(s, Op.Exit, t) <==> HeirFrom(s, c, t, 0);
      assert SameJob(s1.tasks[t], s2.tasks[t]) && SameJob(s3.tasks[t], r.tasks[t]);
    }
    assert SameJob(s3.tasks[c], r.tasks[c]);
  }

  lemma ExitBystanders(s: State, c: TaskId, s1: State, s2: State, s3: State, r: State)
    requires s.tasks[c].state == Running && ReleaseEffect(s, c, 0, s1) && Quiet(s1, s2) && Quiet(s3, r)
    requires s3 == SetTask(s2, c, s2.tasks[c].(state := Terminated))
    ensures BystandersLeft(s, r)
  {
    assert BystandersLeft(s, s1);
    BystandersThenQuiet(s, s1, s2);
    BystandersThenQuiet(s, s3, r);
  }

  lemma ExitEffect(s: State)
    requires Inv(s)
    ensures Effect(s, Op.Exit, TerminateCurrent(s))
    ensures TerminateCurrent(s).sems == s.sems && TerminateCurrent(s).queues == s.queues
    ensures CurrentRuns(s) ==>
              Inherits(s, s.current.value, TerminateCurrent(s))
                && TerminateCurrent(s).tasks[s.current.value].state == Terminated
  {
    if CurrentRuns(s) {
      var c := s.current.value;
      ReleaseTaskKeeps(s, c);
      ReleaseTaskQuiet(s, c);
      var s2 := ReleaseTask(s, c);
      RetireSettled(s2, c);
      SwitchAwayStep(SetTask(s2, c, s2.tasks[c].(state := Terminated)));
      ExitChain(s, c, ReleaseFrom(s, c, 0), s2, TerminateCurrent(s));
    } else {
      SparedEffect(s, Op.Exit, s);
    }
  }

  // ----- Ticks

  /** In the tick being processed the time of task t has come. */
  predicate Due(s: State, t: TaskId) {
    s.tasks[t].delayList == Some(s.px) && s.tasks[t].wakeTick == s.tick
  }

  /** The task woke up because its time had come; a waiter is told so. */
  ghost predicate WokeByClock(s: State, r: State, t: TaskId) {
    && SameJob((if s.tasks[t].state == BlockedObject then Woken(s.tasks[t], Timeout) else s.tasks[t])
               .(state := Ready, delayList := None), r.tasks[t])
    && r.tasks[t].wait == None
  }

  ghost predicate Elapse(s: State, r: State) {
    && (forall t: TaskId :: IsBlocked(s.tasks[t]) ==> if Due(s, t) then WokeByClock(s, r, t) else Spared(s, r, t))
    && (forall t: TaskId :: !IsBlocked(s.tasks[t]) ==> Spared(s, r, t))
  }

  lemma {:induction false} ExpireLoopElapse(s: State, woke: bool)
    requires Ticking(s)
    ensures Elapse(s, ExpireLoop(s, woke).0)
    decreases |s.delayed[s.px]|
  {
    if HeadIsDue(s) {
      ExpireHeadKeeps(s);
      HeadIsDueExactly(s);
      var t := s.delayed[s.px][0];
      var s1 := ExpireHead(s);
      ExpireLoopElapse(s1, woke || Outranks(s1, t));
      ElapseOneMore(s, t, s1, ExpireLoop(s, woke).0);
    } else {
      NoneLeftBehind(s);
      forall t: TaskId ensures !Due(s, t) { assert OnTime(s.tasks[t], s.px, s.tick, false); }
    }
  }

  lemma ElapseOneMore(s: State, t: TaskId, s1: State, r: State)
    requires Expired(s, t, s1) && Due(s, t) && Elapse(s1, r)
    ensures Elapse(s, r)
  {
    forall u: TaskId | u != t ensures Due(s1, u) == Due(s, u) { }
  }

  lemma ElapseQuiet(s: State, m: State, r: State)
    requires Elapse(s, m) && Quiet(m, r)
    ensures forall t: TaskId :: IsBlocked(s.tasks[t]) ==> if Due(s, t) then WokeByClock(s, r, t) else Spared(s, r, t)
  {
    forall t: TaskId | IsBlocked(s.tasks[t]) ensures if Due(s, t) then WokeByClock(s, r, t) else Spared(s, r, t) {
      assert SameJob(m.tasks[t], r.tasks[t]);
    }
  }

  lemma EndTickQuiet(s: State, woke: bool)
    requires Settled(s) && OneRuns(s.tasks, s.current)
    ensures Quiet(s, EndTick(SpendSlice(s), woke))
  {
    var s2 := SpendSlice(s);
    SpendKeeps(s, woke);
    assert Quiet(s, s2);
    EndTickOnly(s2, woke);
    QuietTrans(s, s2, EndTick(s2, woke));
  }

  lemma FreshSliceQuiet(r: State, c: TaskId)
    requires r.tasks[c].state == Running
    ensures Quiet(r, SetTask(r, c, r.tasks[c].(slice := TIME_SLICE_TICKS)))
  {
  }

  lemma EndTickOnly(s: State, woke: bool)
    requires Settled(s) && OneRuns(s.tasks, s.current)
    ensures Quiet(s, EndTick(s, woke))
  {
    if (s.current == None && ReadyHighest(s) >= 0) || woke {
      ScheduleKeeps(s, false);
    } else if s.current.Some? && s.tasks[s.current.value].slice == 0 {
      ScheduleKeeps(s, true);
      RotateQuiet(s, Schedule(s, true));
    } else {
      assert Quiet(s, s);
    }
  }

  lemma RotateQuiet(s: State, r: State)
    requires s.current.Some? && Quiet(s, r) && OneRuns(r.tasks, r.current)
    ensures r.current == s.current
            ==> Quiet(s, SetTask(r, s.current.value, r.tasks[s.current.value].(slice := TIME_SLICE_TICKS)))
  {
    if r.current == s.current {
      FreshSliceQuiet(r, s.current.value);
      QuietTrans(s, r, SetTask(r, s.current.value, r.tasks[s.current.value].(slice := TIME_SLICE_TICKS)));
    }
  }

  /** The task sleeps with a time limit that the next tick reaches. */
  predicate TimeUp(s: State, t: TaskId) {
    s.tasks[t].delayList.Some? && Remaining(s, t) == 1
  }

  /** A tick wakes exactly the sleepers whose time is up, and no others. */
  lemma TickEffect(s: State)
    requires Inv(s)
    ensures var r := TimeTick(s);
            && r.tick == (s.tick + 1) % TICK_MODULUS
            && (forall t: TaskId :: IsBlocked(s.tasks[t])
                  ==> if TimeUp(s, t) then WokeByClock(s, r, t) else Spared(s, r, t))
            && SamePools(s, r) && r.mutexes == s.mutexes && BystandersLeft(s, r)
  {
    AdvanceKeeps(s);
    var s0 := AdvanceClock(s);
    ExpireLoopKeeps(s0, false);
    ExpireLoopElapse(s0, false);
    var (s1, woke) := ExpireLoop(s0, false);
    NoneLeftBehind(s1);
    EndTickQuiet(s1, woke);
    TickChain(s, s0, s1, TimeTick(s));
  }

  lemma TickChain(s: State, s0: State, s1: State, r: State)
    requires Delays(s, false) && s0 == AdvanceClock(s) && Elapsed(s0, s1) && Elapse(s0, s1) && Quiet(s1, r)
    ensures r.tick == (s.tick + 1) % TICK_MODULUS && SamePools(s, r) && r.mutexes == s.mutexes && BystandersLeft(s, r)
    ensures forall t: TaskId :: IsBlocked(s.tasks[t]) ==> if TimeUp(s, t) then WokeByClock(s, r, t) else Spared(s, r, t)
  {
    ElapseQuiet(s0, s1, r);
    BystandersThenQuiet(s, s1, r);
    forall t: TaskId ensures Due(s0, t) <==> TimeUp(s, t) { DueMeansTimeUp(s, t); }
  }

  lemma DueMeansTimeUp(s: State, t: TaskId)
    requires Delays(s, false)
    ensures Due(AdvanceClock(s), t) <==> TimeUp(s, t)
  {
    assert OnTime(s.tasks[t], s.px, s.tick, false);
  }

  // ----- Any step

  /** One kernel step other than a tick wakes exactly the sleepers it serves. */
  lemma StepEffect(s: State, op: Op)
    requires Inv(s) && Allowed(s, op) && !op.Tick?
    ensures Effect(s, op, Next(s, op))
  {
    match op
    case Yield => YieldStep(s); QuietSpares(s, YieldCurrent(s));
    case Give(i) => GiveEffect(s, i);
    case GiveIsr(i) => GiveIsrEffect(s, i);
    case Unlock(m) => UnlockEffect(s, m);
    case Exit => ExitEffect(s);
    case Enter => EnterStep(s); QuietSpares(s, EnterCritical(s));
    case Leave => ExitStep(s); QuietSpares(s, ExitCritical(s));
    case _ => if MaySleep(op) { SleepingCallEffect(s, op); } else { SetupSpares(s, op); }
  }

  lemma SleepingCallEffect(s: State, op: Op)
    requires Inv(s) && Allowed(s, op) && MaySleep(op)
    ensures Effect(s, op, Next(s, op))
  {
    match op
    case Delay(n) => DelaySpares(s, n);
    case Take(i, timeout) => TakeSpares(s, i, timeout);
    case Send(i, item, timeout) => SendEffect(s, i, item, timeout);
    case Receive(i, out, timeout) => ReceiveEffect(s, i, out, timeout);
    case Lock(m, timeout) => LockSpares(s, m, timeout);
  }

  lemma SetupSpares(s: State, op: Op)
    requires Inv(s)
             && (op.CreateTask? || op.EnsureIdle? || op.CreateSem? || op.CreateQueue? || op.CreateMutex? || op.Start?)
    ensures AllSpared(s, Next(s, op))
    ensures !op.CreateSem? ==> Next(s, op).sems == s.sems
    ensures !op.CreateQueue? ==> Next(s, op).queues == s.queues
    ensures !op.CreateMutex? ==> Next(s, op).mutexes == s.mutexes
  {
    if op.Start? {
      StartSpares(s);
    } else {
      CreateSpares(s, op);
    }
  }

  lemma StartSpares(s: State)
    requires Inv(s)
    ensures AllSpared(s, SchedStart(s)) && SamePools(s, SchedStart(s)) && SchedStart(s).mutexes == s.mutexes
  {
    if !s.started {
      StartUnfolds(s);
      var s1 := s.(started := true);
      assert Quiet(s1, PickNext(s1)) by { PickNextKeeps(s1); }
      QuietSpares(s1, PickNext(s1));
    }
  }

  lemma CreateSpares(s: State, op: Op)
    requires op.CreateTask? || op.EnsureIdle? || op.CreateSem? || op.CreateQueue? || op.CreateMutex?
    requires s.taskCount < MAX_TASKS ==> s.tasks[s.taskCount].state == Unused
    ensures AllSpared(s, Next(s, op))
    ensures !op.CreateSem? ==> Next(s, op).sems == s.sems
    ensures !op.CreateQueue? ==> Next(s, op).queues == s.queues
    ensures !op.CreateMutex? ==> Next(s, op).mutexes == s.mutexes
  {
  }
}
