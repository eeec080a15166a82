/** A task that is switched to keeps the processor for its full time slice unless it is outranked or
    gives way, and then the first task of its priority takes over. */
module Slices {
  import opened Wrappers
  import opened KernelState
  import opened Sched
  import opened KernelObjects
  import opened Time
  import opened Placement
  import opened Invariants
  import opened SchedProofs
  import opened StepProofs
  import opened ObjectProofs
  import opened MutexProofs
  import opened TickProofs
  import opened Machine
  import opened Effects
  import opened Replies
  import opened RoundRobin
  import opened Timing
  import opened Turns

  // ----- Every turn starts with a full slice

  /** Whoever runs has a full slice, or ran before and has as much left as before. */
  predicate FullOrSame(s: State, r: State) {
    r.current.Some? ==>
      || r.tasks[r.current.value].slice == TIME_SLICE_TICKS
      || (r.current == s.current && r.tasks[r.current.value].slice == s.tasks[r.current.value].slice)
  }

  lemma ScheduleFull(s: State, rotate: bool)
    ensures FullOrSame(s, Schedule(s, rotate))
  {
    PickNextFresh(s);
    if CurrentRuns(s) { PickNextFresh(Requeue(s, s.current.value)); }
  }

  lemma PreemptFull(s: State, w: TaskId)
    ensures FullOrSame(s, MaybePreempt(s, w))
  {
    ScheduleFull(s, false);
  }

  lemma LeaveFull(s: State)
    ensures FullOrSame(s, ExitCritical(s))
  {
    if s.nesting == 1 && s.pending { ScheduleFull(s.(nesting := 0, pending := false), false); }
  }

  lemma EndTickFull(s: State, woke: bool)
    ensures FullOrSame(s, EndTick(s, woke))
  {
    ScheduleFull(s, false);
    ScheduleFull(s, true);
  }

  lemma BoostFull(s: State, o: TaskId)
    requires Structure(s, {}) && Objects(s) && PoolFits(s)
    ensures FullOrSame(s, BoostOwner(s, o))
  {
    RecomputeKeeps(s, false);
    ScheduleFull(WaitersChanged(s), false);
  }

  lemma BlockFull(s: State, l: WaitId, cell: Message, timeout: Tick)
    requires Inv(s) && s.current.Some? && timeout != 0
    ensures var r := WaitBlock(s, l, cell, timeout);
            r.current.Some? ==> r.tasks[r.current.value].slice == TIME_SLICE_TICKS
  {
    WaitBlockUnfolds(s, l, cell, timeout);
    PickNextFresh(Park(s, s.current.value, l, cell, ClampTimeout(timeout)));
  }

  predicate FreshTurn(r: State) {
    r.current.Some? ==> r.tasks[r.current.value].slice == TIME_SLICE_TICKS
  }

  lemma LockFull(s: State, m: MutexId, timeout: Tick)
    requires Inv(s) && CurrentRuns(s) && !IsIdle(s.tasks[s.current.value]) && timeout != 0
    requires s.mutexes[m].used && s.mutexes[m].owner.Some? && s.mutexes[m].owner != s.current
    ensures FreshTurn(LockCurrent(s, Some(m), timeout))
  {
    var cell := s.tasks[s.current.value].cell;
    BlockFull(s, MutexList(m), cell, timeout);
    BlockedOnMutex(s, m, timeout);
    BoostFull(WaitBlock(s, MutexList(m), cell, timeout), s.mutexes[m].owner.value);
    LockIs(s, m, timeout);
  }

  lemma WaitFull(s: State, op: Op, r: State)
    requires Inv(s) && Allowed(s, op) && s.current.Some? && MustWait(s, op) && r == Next(s, op)
    ensures FreshTurn(r)
  {
    var cell := s.tasks[s.current.value].cell;
    UsedIsValid(s);
    match op
    case Take(i, timeout) => BlockFull(s, SemList(i.value), cell, timeout);
    case Send(i, item, timeout) => SendFull(s, i.value, item.value, timeout);
    case Receive(i, _, timeout) => BlockFull(s, ReceiveList(i.value), cell, timeout);
    case Lock(m, timeout) => LockFull(s, m.value, timeout);
  }

  lemma SendFull(s: State, i: QueueId, item: Message, timeout: Tick)
    requires Inv(s) && s.current.Some? && QueueIsValid(s, Some(i)) && timeout != 0
    requires s.queues[i].count == s.queues[i].capacity
    ensures FreshTurn(SendCurrent(s, Some(i), Some(item), timeout))
  {
    SendUnfolds(s, i, item, timeout);
    if WaitPop(s, ReceiveList(i)).1.Some? { ReceiversWaitAtEmpty(s, i); }
    BlockFull(s, SendList(i), item, timeout);
  }

  lemma DelayFull(s: State, n: Tick)
    requires Inv(s) && s.current.Some? && n > 0
    ensures FreshTurn(DelayCurrent(s, n))
  {
    DelayUnfolds(s, n);
    PickNextFresh(Sleep(s, s.current.value, ClampDelay(n)));
  }

  lemma ExitFull(s: State)
    requires s.current.Some? && CurrentRuns(s)
    ensures FreshTurn(TerminateCurrent(s))
  {
    var c := s.current.value;
    var s1 := ReleaseTask(s, c);
    PickNextFresh(SetTask(s1, c, s1.tasks[c].(state := Terminated)));
  }

  lemma GiveIsrFull(s: State, i: Option<SemId>)
    requires Inv(s) && s.current == None
    ensures FreshTurn(GiveFromIsr(s, i))
  {
    EnterStep(s);
    GiveAnySettled(EnterCritical(s), i);
    var (m, _, w) := GiveAny(EnterCritical(s), i);
    if w.Some? { PreemptFull(m, w.value); }
    LeaveFull(if w.Some? then MaybePreempt(m, w.value) else m);
  }

  lemma TickFull(s: State, r: State)
    requires Inv(s) && r == TimeTick(s)
    ensures r.current == s.current || FreshTurn(r)
  {
    AdvanceKeeps(s);
    ExpireLoopKeeps(AdvanceClock(s), false);
    var (s1, woke) := ExpireLoop(AdvanceClock(s), false);
    EndTickFull(SpendSlice(s1), woke);
  }

  lemma StartFull(s: State)
    ensures SchedStart(s).current == s.current || FreshTurn(SchedStart(s))
  {
  }

  /** In every step: a task that did not run before starts with a full time slice. */
  lemma NewTurnIsFull(s: State, op: Op, r: State)
    requires Inv(s) && Allowed(s, op) && r == Next(s, op)
    ensures r.current == s.current || FreshTurn(r)
  {
    if s.current.Some? {
      if GivesUp(s, op) { LeaverFull(s, op, r); } else { EveryTurn(s, op, s.current.value, r); }
    } else if IsCall(op) {
      NobodyCalls(s, op);
    } else {
      IdleFull(s, op, r);
    }
  }

  lemma LeaverFull(s: State, op: Op, r: State)
    requires Inv(s) && Allowed(s, op) && s.current.Some? && GivesUp(s, op) && r == Next(s, op)
    ensures FreshTurn(r)
  {
    if op.Exit? { ExitFull(s); } else if op.Delay? { DelayFull(s, op.ticks); } else { WaitFull(s, op, r); }
  }

  lemma IdleFull(s: State, op: Op, r: State)
    requires Inv(s) && s.current == None && !IsCall(op) && r == Next(s, op)
    ensures r.current == None || FreshTurn(r)
  {
    match op
    case GiveIsr(i) => GiveIsrFull(s, i);
    case Tick => TickFull(s, r);
    case Leave => LeaveFull(s);
    case Start => StartFull(s);
    case _ =>
  }

  // ----- Keeping the processor

  /** The step neither ends the turn of c nor lets anybody above c become able to run. */
  ghost predicate Undisputed(s: State, op: Op, r: State, c: TaskId) {
    !Yields(op) && !GivesUp(s, op) && NoneAbove(r, r.tasks[c].eff)
  }

  ghost predicate UndisputedRun(s: State, ops: seq<Op>, c: TaskId)
    decreases |ops|
  {
    ops == [] || (Undisputed(s, ops[0], Next(s, ops[0]), c) && UndisputedRun(Next(s, ops[0]), ops[1..], c))
  }

  /** Until its slice is used up, a task that nobody outranks and that does not give way runs on, in
      any interleaving of ticks, interrupts and its own calls. */
  lemma {:induction false} KeepsProcessor(s: State, ops: seq<Op>, c: TaskId)
    requires Inv(s) && AllowedRun(s, ops) && s.current == Some(c) && Ticks(ops) < s.tasks[c].slice
    requires UndisputedRun(s, ops, c)
    ensures Run(s, ops).current == Some(c) && Run(s, ops).tasks[c].slice == s.tasks[c].slice - Ticks(ops)
    decreases |ops|
  {
    if ops != [] {
      var r := Next(s, ops[0]);
      EveryTurn(s, ops[0], c, r);
      NextKeeps(s, ops[0]);
      assert r.current == Some(c) && r.tasks[c].slice == s.tasks[c].slice - (if ops[0].Tick? then 1 else 0);
      KeepsProcessor(r, ops[1..], c);
    }
  }

  /** A task just switched to gets all 200 ticks of its slice: it still runs after any run with fewer. */
  lemma FullSlice(s: State, op: Op, ops: seq<Op>, c: TaskId)
    requires Reachable(s) && Allowed(s, op) && s.current != Some(c) && Next(s, op).current == Some(c)
    requires AllowedRun(Next(s, op), ops) && UndisputedRun(Next(s, op), ops, c) && Ticks(ops) < 200
    ensures Run(Next(s, op), ops).current == Some(c)
  {
    ReachableInv(s);
    NewTurnIsFull(s, op, Next(s, op));
    NextKeeps(s, op);
    KeepsProcessor(Next(s, op), ops, c);
  }

  /** On the tick that uses up the slice, the first ready task of the same priority takes over and
      the task that ran goes behind the last one. */
  lemma SliceEnds(s: State, op: Op, c: TaskId, t: TaskId, r: State)
    requires Inv(s) && s.current == Some(c) && !s.pending && s.tasks[c].slice == 1 && op.Tick? && r == Next(s, op)
    requires FirstBehind(s, c, t) && NoneAbove(r, s.tasks[c].eff) && r.tasks[t].eff == s.tasks[c].eff
    ensures r.current == Some(t) && QueuedLast(r, c)
  {
    assert InLine(s, t) && Ahead(s, t) == 0 && Undisturbed(s, t, s.tasks[c].eff) by { FirstInLine(s, c, t); }
    LastTick(s, c, t, r);
  }

  /** t is the first ready task of c's priority. */
  predicate FirstBehind(s: State, c: TaskId, t: TaskId) {
    var q := At(s.lists, ReadyList(s.tasks[c].eff)); q != [] && q[0] == t
  }

  lemma LastTick(s: State, c: TaskId, t: TaskId, r: State)
    requires s.current == Some(c) && s.tasks[c].slice == 1 && IsTick(s, r) && InLine(s, t) && Ahead(s, t) == 0
    requires Undisturbed(s, t, s.tasks[c].eff) && Undisturbed(r, t, s.tasks[c].eff)
    ensures r.current == Some(t) && QueuedLast(r, c)
  {
    NextInLine(s, c, t, r);
    assert TickTurn(1, r, c) by { TickTurns(s, c, r); }
  }

  lemma NextInLine(s: State, c: TaskId, t: TaskId, r: State)
    requires s.current == Some(c) && s.tasks[c].slice == 1 && IsTick(s, r) && InLine(s, t) && Ahead(s, t) == 0
    requires Undisturbed(s, t, s.tasks[c].eff) && Undisturbed(r, t, s.tasks[c].eff)
    ensures r.current == Some(t)
  {
    OneTickCloser(s, r, t, s.tasks[c].eff);
    if r.current != Some(t) { RankIsPositive(r, t); }
  }

  lemma FirstInLine(s: State, c: TaskId, t: TaskId)
    requires Inv(s) && s.current == Some(c) && !s.pending && FirstBehind(s, c, t)
    ensures InLine(s, t) && Undisturbed(s, t, s.tasks[c].eff) && Ahead(s, t) == 0
  {
    assert t in At(s.lists, ReadyList(s.tasks[c].eff));
  }

  // ----- Yielding

  /** Yielding lets the first ready task of the caller's priority run and puts the caller behind the
      last one; alone, the caller starts another slice. */
  lemma YieldRotates(s: State, op: Op, c: TaskId, r: State)
    requires Inv(s) && s.current == Some(c) && !s.pending && Yields(op) && r == Next(s, op)
    ensures var l := ReadyList(s.tasks[c].eff);
            var q := At(s.lists, l) + [c]; r.current == Some(q[0]) && At(r.lists, l) == q[1..]
    ensures r.tasks[r.current.value].slice == TIME_SLICE_TICKS
  {
    var p, s1 := s.tasks[c].eff, Requeue(s, c);
    RequeueKeeps(s, c);
    ReadyHighestIsHighest(s1);
    var u := At(s1.lists, ReadyList(ReadyHighest(s1)))[0];
    assert u != c ==> s.tasks[u].state == Ready;
    assert ReadyHighest(s1) == p;
    PickNextFresh(s1);
  }
}
