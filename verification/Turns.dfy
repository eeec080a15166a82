/** When the running task loses the processor, and how long its time slice lasts. */
module Turns {
  import opened Wrappers
  import opened ReadyBitmap
  import opened KernelState
  import opened Sched
  import opened KernelObjects
  import opened Time
  import opened Placement
  import opened DelayLists
  import opened Invariants
  import opened SchedProofs
  import opened StepProofs
  import opened ObjectProofs
  import opened MutexProofs
  import opened TickProofs
  import opened Machine
  import opened Effects
  import opened Replies
  import opened Sections

  /** c is ready again, behind all tasks of its priority. */
  predicate QueuedLast(r: State, c: TaskId) {
    && r.tasks[c].state == Ready
    && var q := At(r.lists, ReadyList(r.tasks[c].eff)); q != [] && q[|q| - 1] == c
  }

  /** Somebody else runs now, with a full time slice. */
  predicate Replaced(r: State, c: TaskId) {
    && QueuedLast(r, c)
    && r.current.Some? && r.current != Some(c) && r.tasks[r.current.value].slice == TIME_SLICE_TICKS
  }

  /** A task of higher priority took over. */
  predicate Outdone(r: State, c: TaskId) {
    Replaced(r, c) && r.tasks[r.current.value].eff > r.tasks[c].eff
  }

  /** A task of the same priority took its turn. */
  predicate Rotated(r: State, c: TaskId) {
    Replaced(r, c) && r.tasks[r.current.value].eff == r.tasks[c].eff
  }

  predicate StillRuns(s: State, r: State, c: TaskId) {
    r.current == Some(c) && r.tasks[c].slice == s.tasks[c].slice
  }

  // ----- The switch itself

  lemma PickNextFresh(s: State)
    ensures var r := PickNext(s); r.current.Some? ==> r.tasks[r.current.value].slice == TIME_SLICE_TICKS
  {
  }

  /** Whoever is picked after c was queued again: c itself only if nobody else is as urgent. */
  lemma SwitchTurns(s: State, c: TaskId)
    requires Containers(s, {}) && OneRuns(s.tasks, Some(c))
    ensures var r := PickNext(Requeue(s, c)); r.current == Some(c) || Outdone(r, c) || Rotated(r, c)
    ensures var r := PickNext(Requeue(s, c)); r.current.Some? ==> r.tasks[r.current.value].slice == TIME_SLICE_TICKS
  {
    var s1 := Requeue(s, c);
    RequeueKeeps(s, c);
    assert Highest(PickNext(s1)) && SameEff(s, PickNext(s1)) by { SwitchKeeps(s, c); }
    ReadyHighestIsHighest(s1);
    PickNextFresh(s1);
    PoppedLast(s1, c, s.tasks[c].eff, PickNext(s1));
  }

  lemma PoppedLast(s1: State, c: TaskId, p: Priority, r: State)
    requires s1.tasks[c].state == Ready && s1.tasks[c].eff == p && r == PickNext(s1) && ReadyHighest(s1) >= p
    requires var q := At(s1.lists, ReadyList(p)); q != [] && q[|q| - 1] == c
    requires At(s1.lists, ReadyList(ReadyHighest(s1))) != []
    ensures r.current.Some? && (r.current == Some(c) || QueuedLast(r, c))
  {
  }

  /** With somebody at least as urgent ready, c does not run on. */
  lemma SwitchLeaves(s: State, c: TaskId, r: State)
    requires Containers(s, {}) && OneRuns(s.tasks, Some(c)) && ReadyHighest(s) >= s.tasks[c].eff
    requires r == PickNext(Requeue(s, c))
    ensures r.current != Some(c)
  {
    var s1 := Requeue(s, c);
    RequeueKeeps(s, c);
    ReadyHighestIsHighest(s);
    ReadyHighestIsHighest(s1);
    var u := At(s.lists, ReadyList(ReadyHighest(s)))[0];
    assert s1.tasks[u].state == Ready && u != c;
    assert c !in At(s.lists, ReadyList(s.tasks[c].eff));
    var h := ReadyHighest(s1);
    assert h >= ReadyHighest(s);
    if h == s.tasks[c].eff { assert At(s1.lists, ReadyList(h))[0] == At(s.lists, ReadyList(h))[0]; }
  }

  lemma ScheduleTurns(s: State, c: TaskId)
    requires Containers(s, {}) && OneRuns(s.tasks, s.current) && s.current == Some(c)
    ensures StillRuns(s, Schedule(s, false), c) || Outdone(Schedule(s, false), c)
  {
    if s.started && ReadyHighest(s) > s.tasks[c].eff {
      var r := PickNext(Requeue(s, c));
      SwitchTurns(s, c);
      SwitchLeaves(s, c, r);
      ReadyHighestIsHighest(s);
      var u := At(s.lists, ReadyList(ReadyHighest(s)))[0];
      HigherWins(s, c, u, r);
    }
  }

  lemma HigherWins(s: State, c: TaskId, u: TaskId, r: State)
    requires Containers(s, {}) && OneRuns(s.tasks, Some(c)) && r == PickNext(Requeue(s, c))
    requires s.tasks[u].state == Ready && s.tasks[u].eff > s.tasks[c].eff
    ensures r.current.Some? && r.tasks[r.current.value].eff > r.tasks[c].eff
  {
    SwitchKeeps(s, c);
    assert SameJob(s.tasks[u], r.tasks[u]);
  }

  lemma RotateTurns(s: State, c: TaskId)
    requires Containers(s, {}) && OneRuns(s.tasks, s.current) && s.current == Some(c)
    ensures var r := Schedule(s, true); StillRuns(s, r, c) || Outdone(r, c) || Rotated(r, c)
  {
    if s.started && ReadyHighest(s) >= s.tasks[c].eff {
      SwitchTurns(s, c);
      SwitchLeaves(s, c, PickNext(Requeue(s, c)));
    }
  }

  // ----- Calls that may wake somebody

  /** The call changed nothing about the turn of c. */
  predicate Unswitched(s: State, r: State, c: TaskId) {
    StillRuns(s, r, c) && r.tasks[c].state == Running && r.nesting == s.nesting && r.pending == s.pending
  }

  /** The call made w ready, which left c running in m, and then let w preempt. */
  ghost predicate Serving(s: State, m: State, w: TaskId, r: State, c: TaskId) {
    && Containers(m, {}) && OneRuns(m.tasks, m.current) && m.current == Some(c)
    && m.tasks[c].slice == s.tasks[c].slice && m.tasks[w].state == Ready
    && m.nesting == s.nesting && m.pending == s.pending && r == MaybePreempt(m, w)
  }

  predicate MayServe(op: Op) {
    op.Give? || op.Send? || op.Receive? || op.Unlock?
  }

  lemma ServedTurn(s: State, l: WaitId, s1: State, w: TaskId, c: TaskId)
    requires Structure(s, {}) && OneRuns(s.tasks, s.current) && s.current == Some(c) && WaitPop(s, l).1 == Some(w)
    requires var p := WaitPop(s, l).0;
             SameButResults(p.tasks, s1.tasks)
               && s1 == p.(tasks := s1.tasks, sems := s1.sems, queues := s1.queues, mutexes := s1.mutexes)
    ensures Serving(s, MakeReady(s1, w, Status.Ok), w, Serve(s1, w), c)
  {
    ServeKeeps(s, l, s1, w);
    ServedOneRuns(s, s1, w, c, MakeReady(s1, w, Status.Ok));
  }

  lemma ServedOneRuns(s: State, s1: State, w: TaskId, c: TaskId, m: State)
    requires OneRuns(s.tasks, s.current) && s.current == Some(c) && s.tasks[w].state == BlockedObject
    requires SameButResults(s.tasks, s1.tasks)
             && m.tasks == s1.tasks[w := Woken(s1.tasks[w], Status.Ok).(delayList := None)]
    ensures OneRuns(m.tasks, s.current) && m.tasks[c].slice == s.tasks[c].slice && m.tasks[w].state == Ready
  {
    forall t: TaskId ensures m.tasks[t].state == Running <==> s.current == Some(t) {
      assert s1.tasks[t].state == s.tasks[t].state;
    }
  }

  lemma GiveTurn(s: State, i: Option<SemId>, c: TaskId, r: State) returns (m: State, w: TaskId)
    requires Inv(s) && s.current == Some(c) && r == GiveCurrent(s, i)
    ensures Unswitched(s, r, c) || Serving(s, m, w, r, c)
  {
    m, w := s, c;
    if SemIsValid(s, i) && WaitPop(s, SemList(i.value)).1.Some? {
      var (s1, status, v) := GiveAny(s, i);
      w := v.value;
      m := SetResult(s1, c, status);
      GaveServing(s, i.value, c, w, s1, m);
    }
  }

  lemma GaveServing(s: State, i: SemId, c: TaskId, w: TaskId, s1: State, m: State)
    requires Inv(s) && s.current == Some(c) && SemIsValid(s, Some(i)) && WaitPop(s, SemList(i)).1 == Some(w)
    requires s1 == MakeReady(WaitPop(s, SemList(i)).0, w, Status.Ok) && m == SetResult(s1, c, Status.Ok)
    ensures Serving(s, m, w, MaybePreempt(m, w), c)
  {
    var l := SemList(i);
    var p := WaitPop(s, l).0;
    assert SameButResults(p.tasks, p.tasks);
    ServedTurn(s, l, p, w, c);
    SameHomesKeep(s1, m, {});
  }

  lemma SendTurn(s: State, i: QueueId, item: Message, timeout: Tick, c: TaskId, r: State) returns (m: State, w: TaskId)
    requires Inv(s) && s.current == Some(c) && QueueIsValid(s, Some(i))
             && r == SendCurrent(s, Some(i), Some(item), timeout)
    requires r.tasks[c].state != BlockedObject
    ensures Unswitched(s, r, c) || Serving(s, m, w, r, c)
  {
    m, w := s, c;
    SendUnfolds(s, i, item, timeout);
    var l := ReceiveList(i);
    if WaitPop(s, l).1.Some? {
      w := WaitPop(s, l).1.value;
      var s2 := Delivery(s, i, item);
      m := MakeReady(s2, w, Status.Ok);
      FrontWaits(s, l);
      DeliveryChanges(s, i, item, WaitPop(s, l).0, w, s2);
      ServedTurn(s, l, s2, w, c);
    } else if s.queues[i].count == s.queues[i].capacity && timeout != 0 {
      ParkedWaits(s, c, SendList(i), item, timeout);
    }
  }

  lemma ReceiveTurn(s: State, i: QueueId, timeout: Tick, c: TaskId, r: State) returns (m: State, w: TaskId)
    requires Inv(s) && s.current == Some(c) && QueueIsValid(s, Some(i))
             && r == ReceiveCurrent(s, Some(i), true, timeout)
    requires r.tasks[c].state != BlockedObject
    ensures Unswitched(s, r, c) || Serving(s, m, w, r, c)
  {
    m, w := s, c;
    var l := SendList(i);
    if s.queues[i].count > 0 {
      ReceiveUnfolds(s, i, timeout);
      if WaitPop(s, l).1.Some? {
        w := WaitPop(s, l).1.value;
        var s4 := Refill(s, i, w);
        m := MakeReady(s4, w, Status.Ok);
        FrontWaits(s, l);
        RefillChanges(s, i, w, WaitPop(s, l).0, s4);
        ServedTurn(s, l, s4, w, c);
      }
    } else if timeout != 0 {
      ParkedWaits(s, c, ReceiveList(i), s.tasks[c].cell, timeout);
    }
  }

  lemma UnlockTurn(s: State, k: Option<MutexId>, c: TaskId, r: State) returns (m: State, w: TaskId)
    requires Inv(s) && s.current == Some(c) && r == UnlockCurrent(s, k)
    ensures Unswitched(s, r, c) || Serving(s, m, w, r, c)
  {
    m, w := s, c;
    if UnlockWorks(s, k) {
      if At(s.lists, WaitList(MutexList(k.value))) == [] {
        assert Unswitched(s, r, c) by { UnlockFreeReply(s, k.value, c, r); }
      } else {
        m, w := UnlockPassTurn(s, k.value, c, r);
      }
    }
  }

  lemma UnlockPassTurn(s: State, k: MutexId, c: TaskId, r: State) returns (m: State, w: TaskId)
    requires Inv(s) && s.current == Some(c) && UnlockWorks(s, Some(k)) && r == UnlockCurrent(s, Some(k))
    requires At(s.lists, WaitList(MutexList(k))) != []
    ensures Serving(s, m, w, r, c)
  {
    w := PassOn(s, k).1.value;
    var s1 := SetResult(PassOn(s, k).0, c, Status.Ok);
    m := MakeReady(WaitersChanged(s1), w, Status.Ok);
    assert w != c && Delivered(s1, w, m) by { UnlockHandsOver(s, k, w, s1, r); }
    assert r == MaybePreempt(m, w) by { UnlockIs(s, k, w); }
    assert s.tasks[w].state == BlockedObject by { FrontWaits(s, MutexList(k)); }
    DeliveredServing(s, k, w, s1, m, c, r);
  }

  lemma DeliveredServing(s: State, k: MutexId, w: TaskId, s1: State, m: State, c: TaskId, r: State)
    requires OneRuns(s.tasks, s.current) && s.current == Some(c) && s.tasks[w].state == BlockedObject && w != c
    requires PassOn(s, k).1 == Some(w) && s1 == SetResult(PassOn(s, k).0, c, Status.Ok)
    requires Delivered(s1, w, m) && r == MaybePreempt(m, w)
    ensures Serving(s, m, w, r, c)
  {
    forall t: TaskId ensures m.tasks[t].state == Running <==> s.current == Some(t) {
      assert s1.tasks[t].state == s.tasks[t].state;
    }
  }

  lemma ServesOrNot(s: State, op: Op, c: TaskId, r: State) returns (m: State, w: TaskId)
    requires Inv(s) && s.current == Some(c) && MayServe(op) && r == Next(s, op) && r.tasks[c].state != BlockedObject
    ensures Unswitched(s, r, c) || Serving(s, m, w, r, c)
  {
    m, w := s, c;
    match op
    case Give(i) => m, w := GiveTurn(s, i, c, r);
    case Send(i, item, timeout) =>
      if QueueIsValid(s, i) && item.Some? { m, w := SendTurn(s, i.value, item.value, timeout, c, r); }
    case Receive(i, out, timeout) =>
      if QueueIsValid(s, i) && out { m, w := ReceiveTurn(s, i.value, timeout, c, r); }
    case Unlock(k) => m, w := UnlockTurn(s, k, c, r);
  }

  lemma PreemptTurns(m: State, w: TaskId, c: TaskId)
    requires Containers(m, {}) && OneRuns(m.tasks, m.current) && m.current == Some(c)
    ensures StillRuns(m, MaybePreempt(m, w), c) || Outdone(MaybePreempt(m, w), c)
    ensures m.nesting > 0 ==> MaybePreempt(m, w).current == Some(c)
  {
    ScheduleTurns(m, c);
  }

  lemma LeaveTurns(s: State, c: TaskId)
    requires Containers(s, {}) && OneRuns(s.tasks, s.current) && s.current == Some(c)
    ensures StillRuns(s, ExitCritical(s), c) || Outdone(ExitCritical(s), c)
  {
    CriticalUnfolds(s);
    if s.nesting == 1 && s.pending { ScheduleTurns(s.(nesting := 0, pending := false), c); }
  }

  /** A give from an interrupt switches at most once: at once, or when it leaves its section. */
  lemma GiveIsrTurns(s: State, i: Option<SemId>, c: TaskId, r: State)
    requires Inv(s) && s.current == Some(c) && r == GiveFromIsr(s, i)
    ensures StillRuns(s, r, c) || Outdone(r, c)
  {
    var s0 := EnterCritical(s);
    EnterStep(s);
    var (m, _, w) := GiveAny(s0, i);
    assert Containers(m, {}) && OneRuns(m.tasks, m.current) && m.current == Some(c) && m.nesting == s0.nesting by {
      GiveAnySettled(s0, i);
    }
    assert m.tasks[c] == s.tasks[c] by { GiverStays(s0, i, c); }
    var m1 := if w.Some? then MaybePreempt(m, w.value) else m;
    if w.Some? { PreemptTurns(m, w.value, c); }
    if m.nesting == 0 {
      assert ExitCritical(m1) == m1 by { ScheduleSection(m, false); }
    } else {
      LeaveTurns(m1, c);
    }
  }

  // ----- Ticks

  /** The end of a tick in which c used up one tick of its slice. */
  lemma EndTickTurns(s: State, woke: bool, c: TaskId, r: State)
    requires Settled(s) && OneRuns(s.tasks, s.current) && s.current == Some(c) && s.started
    requires (woke ==> Beaten(s)) && r == EndTick(s, woke)
    ensures || Outdone(r, c)
            || (s.tasks[c].slice == 0 && Rotated(r, c))
            || (r.current == Some(c)
                && r.tasks[c].slice == if s.tasks[c].slice == 0 then TIME_SLICE_TICKS else s.tasks[c].slice)
  {
    if woke {
      BeatenIsOutdone(s, c, r);
    } else if s.tasks[c].slice == 0 {
      RotateTurns(s, c);
    }
  }

  lemma BeatenIsOutdone(s: State, c: TaskId, r: State)
    requires Containers(s, {}) && OneRuns(s.tasks, s.current) && s.current == Some(c) && s.started && Beaten(s)
    requires r == Schedule(s, false)
    ensures Outdone(r, c)
  {
    ScheduleTurns(s, c);
    var u: TaskId :| s.tasks[u].state == Ready && Outranks(s, u);
    ReadyHighestIsHighest(s);
    HigherWins(s, c, u, PickNext(Requeue(s, c)));
  }

  /** The turn of c after a tick that found n ticks left of its slice. */
  predicate TickTurn(n: nat, r: State, c: TaskId) {
    || Outdone(r, c)
    || (r.current == Some(c) && r.tasks[c].slice == if n == 1 then TIME_SLICE_TICKS else n - 1)
    || (n == 1 && Rotated(r, c))
  }

  lemma TickTurns(s: State, c: TaskId, r: State)
    requires Inv(s) && s.current == Some(c) && r == TimeTick(s)
    ensures s.tasks[c].slice >= 1 && TickTurn(s.tasks[c].slice, r, c)
  {
    ElapsedTurn(s, c, ExpireLoop(AdvanceClock(s), false).0, ExpireLoop(AdvanceClock(s), false).1, r);
  }

  /** s1 is the state in which all sleepers have been woken and c still runs. */
  lemma ElapsedTurn(s: State, c: TaskId, s1: State, woke: bool, r: State)
    requires Inv(s) && s.current == Some(c) && (s1, woke) == ExpireLoop(AdvanceClock(s), false)
    requires r == EndTick(SpendSlice(s1), woke)
    ensures TickTurn(s.tasks[c].slice, r, c)
  {
    assert AllExpired(AdvanceClock(s), false, s1, woke) && Settled(s1) by {
      AdvanceKeeps(s);
      ExpireLoopKeeps(AdvanceClock(s), false);
      NoneLeftBehind(s1);
    }
    ExpiredTurn(s, AdvanceClock(s), c, s1, woke, r);
  }

  lemma ExpiredTurn(s: State, s0: State, c: TaskId, s1: State, woke: bool, r: State)
    requires s.current == Some(c) && s.tasks[c].state == Running && s.started && s.tasks[c].slice >= 1
    requires s0.current == s.current && s0.tasks == s.tasks && s0.started
    requires AllExpired(s0, false, s1, woke) && Settled(s1) && r == EndTick(SpendSlice(s1), woke)
    ensures TickTurn(s.tasks[c].slice, r, c)
  {
    SpentTurns(s1, woke, c, r);
  }

  lemma SpentTurns(s1: State, woke: bool, c: TaskId, r: State)
    requires Settled(s1) && OneRuns(s1.tasks, s1.current) && s1.current == Some(c) && s1.started
    requires (woke ==> Beaten(s1)) && r == EndTick(SpendSlice(s1), woke) && s1.tasks[c].slice >= 1
    ensures TickTurn(s1.tasks[c].slice, r, c)
  {
    var s2 := SpendSlice(s1);
    assert Settled(s2) && OneRuns(s2.tasks, s2.current) && s2.current == Some(c) && s2.started
           && (woke ==> Beaten(s2)) && s2.tasks[c].slice == s1.tasks[c].slice - 1 by {
      SpendKeeps(s1, woke);
    }
    EndTickTurns(s2, woke, c, r);
  }

  // ----- Every step

  predicate Yields(op: Op) {
    op.Yield? || (op.Delay? && op.ticks == 0)
  }

  /** The running task goes to sleep or ends. */
  predicate GivesUp(s: State, op: Op) {
    MustWait(s, op) || (op.Delay? && op.ticks > 0) || op.Exit?
  }

  /** What is left of a slice of n ticks if the step does not end the turn. */
  function NextSlice(op: Op, n: nat): nat {
    if Yields(op) || (op.Tick? && n <= 1) then TIME_SLICE_TICKS else if op.Tick? then n - 1 else n
  }

  /** The running task loses the processor only by giving it up, to a task of higher priority, or to
      one of its own priority when it yields or its slice ends; otherwise it runs on, and its slice
      shrinks by one with each tick. */
  predicate Turn(s: State, op: Op, r: State, c: TaskId) {
    if GivesUp(s, op) then !Runnable(r.tasks[c].state)
    else
      || Outdone(r, c)
      || (r.current == Some(c) && r.tasks[c].slice == NextSlice(op, s.tasks[c].slice))
      || ((Yields(op) || (op.Tick? && s.tasks[c].slice == 1)) && Rotated(r, c))
  }

  lemma EveryTurn(s: State, op: Op, c: TaskId, r: State)
    requires Inv(s) && Allowed(s, op) && s.current == Some(c) && r == Next(s, op)
    ensures Turn(s, op, r, c)
  {
    if MayBlock(op) || MayServe(op) {
      CallTurns(s, op, c, r);
    } else if op.Tick? {
      TickTurns(s, c, r);
    } else if GivesUp(s, op) {
      LeavingTurns(s, op, c, r);
    } else if Yields(op) {
      SwitchTurns(s, c);
    } else {
      StayingTurns(s, op, c, r);
    }
  }

  lemma LeavingTurns(s: State, op: Op, c: TaskId, r: State)
    requires Inv(s) && s.current == Some(c) && r == Next(s, op) && (op.Exit? || (op.Delay? && op.ticks > 0))
    ensures !Runnable(r.tasks[c].state)
  {
    if op.Exit? { ExitEffect(s); } else { DelaySpares(s, op.ticks); }
  }

  lemma StayingTurns(s: State, op: Op, c: TaskId, r: State)
    requires Inv(s) && s.current == Some(c) && r == Next(s, op)
    requires !IsCall(op) && !op.Tick?
    ensures StillRuns(s, r, c) || Outdone(r, c)
  {
    match op
    case GiveIsr(i) => GiveIsrTurns(s, i, c, r);
    case Leave => LeaveTurns(s, c);
    case _ =>
  }

  lemma CallTurns(s: State, op: Op, c: TaskId, r: State)
    requires Inv(s) && Allowed(s, op) && s.current == Some(c) && (MayBlock(op) || MayServe(op)) && r == Next(s, op)
    ensures Turn(s, op, r, c)
  {
    if MayBlock(op) { SleepsExactlyWhen(s, op, c, r); }
    if !MustWait(s, op) {
      match op
      case Take(i, timeout) => TakeReplies(s, i, timeout, c, r);
      case Lock(m, timeout) => LockReplies(s, m, timeout, c, r);
      case _ => ServingTurns(s, op, c, r);
    }
  }

  lemma ServingTurns(s: State, op: Op, c: TaskId, r: State)
    requires Inv(s) && s.current == Some(c) && MayServe(op) && r == Next(s, op) && !MustWait(s, op)
    requires MayBlock(op) ==> r.tasks[c].state != BlockedObject
    ensures Turn(s, op, r, c)
  {
    assert r.tasks[c].state != BlockedObject by {
      if op.Give? { GiveReplies(s, op.semaphore, c, r); }
      if op.Unlock? { UnlockReplies(s, op.lock, c, r); }
    }
    var m, w := ServesOrNot(s, op, c, r);
    if Serving(s, m, w, r, c) { PreemptTurns(m, w, c); }
  }

  // ----- Inside a critical section

  /** Inside a section, a call or interrupt that wakes somebody does not switch; a switch is pending
      afterwards exactly when one was before or the woken task outranks the running one. */
  lemma PostponedInside(s: State, op: Op, c: TaskId, r: State)
    requires Inv(s) && s.current == Some(c) && s.nesting > 0 && CanEnter(s, op) && r == Next(s, op)
    requires (MayServe(op) && !MustWait(s, op)) || op.GiveIsr?
    ensures r.current == Some(c) && (r.pending <==> s.pending || !Highest(r))
  {
    assert Inv(r) by { NextKeeps(s, op); }
    if op.GiveIsr? {
      GiveIsrPostpones(s, op.semaphore, c, r);
    } else {
      CallPostpones(s, op, c, r);
    }
  }

  lemma CallPostpones(s: State, op: Op, c: TaskId, r: State)
    requires Inv(s) && s.current == Some(c) && s.nesting > 0 && r == Next(s, op) && MayServe(op) && !MustWait(s, op)
    ensures r.current == Some(c) && r.started && (s.pending ==> r.pending) && (r.pending && !s.pending ==> !Highest(r))
  {
    assert r.tasks[c].state != BlockedObject by {
      if op.Give? { GiveReplies(s, op.semaphore, c, r); }
      if op.Unlock? { UnlockReplies(s, op.lock, c, r); }
      if MayBlock(op) { SleepsExactlyWhen(s, op, c, r); }
    }
    var m, w := ServesOrNot(s, op, c, r);
    assert Inv(r) by { NextKeeps(s, op); }
    if Serving(s, m, w, r, c) { PreemptPostpones(m, w, c); }
  }

  lemma PreemptPostpones(m: State, w: TaskId, c: TaskId)
    requires m.current == Some(c) && m.nesting > 0 && m.tasks[w].state == Ready
    ensures var r := MaybePreempt(m, w);
            && r == m.(pending := r.pending) && (m.pending ==> r.pending)
            && (r.pending && !m.pending ==> r.tasks[w].state == Ready && r.tasks[w].eff > r.tasks[c].eff)
  {
  }

  lemma GiveIsrPostpones(s: State, i: Option<SemId>, c: TaskId, r: State)
    requires Inv(s) && s.current == Some(c) && 0 < s.nesting < TICK_MODULUS - 1 && r == GiveFromIsr(s, i)
    ensures r.current == Some(c) && (s.pending ==> r.pending) && (r.pending && !s.pending ==> !Highest(r))
  {
    var s0 := EnterCritical(s);
    var m, w := GiveAny(s0, i).0, GiveAny(s0, i).2;
    assert r == ExitCritical(if w.Some? then MaybePreempt(m, w.value) else m) by { GiveIsrIs(s, i, s0, m, w); }
    EnteredDeeper(s, s0);
    IsrInside(s, s0, i, c, m, w, r);
  }

  lemma EnteredDeeper(s: State, s0: State)
    requires Inv(s) && 0 < s.nesting < TICK_MODULUS - 1 && s0 == EnterCritical(s)
    ensures Inv(s0) && s0.current == s.current && s0.nesting > 1 && s0.pending == s.pending
  {
    EnterStep(s);
  }

  lemma GiveIsrIs(s: State, i: Option<SemId>, s0: State, m: State, w: Option<TaskId>)
    requires s0 == EnterCritical(s) && m == GiveAny(s0, i).0 && w == GiveAny(s0, i).2
    ensures GiveFromIsr(s, i) == ExitCritical(if w.Some? then MaybePreempt(m, w.value) else m)
  {
  }

  lemma IsrInside(s: State, s0: State, i: Option<SemId>, c: TaskId, m: State, w: Option<TaskId>, r: State)
    requires Inv(s0) && s0.current == Some(c) && s0.nesting > 1 && s0.pending == s.pending
    requires m == GiveAny(s0, i).0 && w == GiveAny(s0, i).2
    requires r == ExitCritical(if w.Some? then MaybePreempt(m, w.value) else m)
    ensures r.current == Some(c) && (s.pending ==> r.pending) && (r.pending && !s.pending ==> !Highest(r))
  {
    GivenInside(s0, i, c, m, w);
    IsrPostpones(m, w, c, r);
  }

  lemma GivenInside(s: State, i: Option<SemId>, c: TaskId, m: State, w: Option<TaskId>)
    requires Inv(s) && s.current == Some(c) && m == GiveAny(s, i).0 && w == GiveAny(s, i).2
    ensures m.current == Some(c) && m.nesting == s.nesting && m.pending == s.pending
    ensures w.Some? ==> m.tasks[w.value].state == Ready
  {
    GiveAnySection(s, i);
    GiveAnySettled(s, i);
    if w.Some? { WokenIsReady(s, i, w.value); }
  }

  lemma IsrPostpones(m: State, w: Option<TaskId>, c: TaskId, r: State)
    requires m.current == Some(c) && m.nesting > 1 && (w.Some? ==> m.tasks[w.value].state == Ready)
    requires r == ExitCritical(if w.Some? then MaybePreempt(m, w.value) else m)
    ensures r.current == Some(c) && (m.pending ==> r.pending) && (r.pending && !m.pending ==> !Highest(r))
  {
    if w.Some? { PreemptPostpones(m, w.value, c); }
  }

  lemma WokenIsReady(s: State, i: Option<SemId>, w: TaskId)
    requires Inv(s) && GiveAny(s, i).2 == Some(w)
    ensures GiveAny(s, i).0.tasks[w].state == Ready
  {
    var l := SemList(i.value);
    FrontWaits(s, l);
    ServeKeeps(s, l, WaitPop(s, l).0, w);
  }
}
