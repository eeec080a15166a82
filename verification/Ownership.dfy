/** A mutex changes hands only by its owner's own unlock or exit, and in between it excludes everybody else. */
module Ownership {
  import opened Wrappers
  import opened KernelState
  import opened Sched
  import opened KernelObjects
  import opened Invariants
  import opened StepProofs
  import opened ObjectProofs
  import opened Machine
  import opened Effects
  import opened Replies

  // ----- Steps that leave all mutexes alone

  lemma PreemptMutexes(s: State, w: TaskId)
    ensures MaybePreempt(s, w).mutexes == s.mutexes
  {
  }

  lemma GiveMutexes(s: State, i: Option<SemId>)
    ensures GiveCurrent(s, i).mutexes == s.mutexes
  {
    if CurrentRuns(s) {
      var (s1, status, w) := GiveAny(s, i);
      if w.Some? { PreemptMutexes(SetResult(s1, s.current.value, status), w.value); }
    }
  }

  lemma GiveIsrMutexes(s: State, i: Option<SemId>)
    requires Inv(s)
    ensures GiveFromIsr(s, i).mutexes == s.mutexes
  {
    GiveIsrQuietly(s, i);
  }

  lemma TakeMutexes(s: State, i: Option<SemId>, timeout: Tick)
    requires Inv(s)
    ensures TakeCurrent(s, i, timeout).mutexes == s.mutexes
  {
    if CurrentRuns(s) && SemIsValid(s, i) && s.sems[i.value].count == 0 && timeout != 0 {
      ParkSpares(s, SemList(i.value), s.tasks[s.current.value].cell, timeout);
    }
  }

  lemma SendMutexes(s: State, i: Option<QueueId>, item: Option<Message>, timeout: Tick)
    requires Inv(s)
    ensures SendCurrent(s, i, item, timeout).mutexes == s.mutexes
  {
    if CurrentRuns(s) && QueueIsValid(s, i) && item.Some? {
      SendUnfolds(s, i.value, item.value, timeout);
      if WaitPop(s, ReceiveList(i.value)).1.Some? {
        SendDirectEffect(s, i.value, item.value);
      } else if s.queues[i.value].count == s.queues[i.value].capacity && timeout != 0 {
        ParkSpares(s, SendList(i.value), item.value, timeout);
      }
    }
  }

  lemma ReceiveMutexes(s: State, i: Option<QueueId>, out: bool, timeout: Tick)
    requires Inv(s)
    ensures ReceiveCurrent(s, i, out, timeout).mutexes == s.mutexes
  {
    if ReceiveWorks(s, i, out) {
      ReceiveUnfolds(s, i.value, timeout);
      if WaitPop(s, SendList(i.value)).1.Some? { RefillEffect(s, i.value); }
    } else if CurrentRuns(s) && QueueIsValid(s, i) && out && timeout != 0 {
      ParkSpares(s, ReceiveList(i.value), s.tasks[s.current.value].cell, timeout);
    }
  }

  lemma MutexesUntouched(s: State, op: Op)
    requires Inv(s) && Allowed(s, op) && !op.Lock? && !op.Unlock? && !op.Exit? && !op.CreateMutex?
    ensures Next(s, op).mutexes == s.mutexes
  {
    match op
    case Yield => YieldStep(s);
    case Delay(n) => DelaySpares(s, n);
    case Take(i, timeout) => TakeMutexes(s, i, timeout);
    case Give(i) => GiveMutexes(s, i);
    case GiveIsr(i) => GiveIsrMutexes(s, i);
    case Send(i, item, timeout) => SendMutexes(s, i, item, timeout);
    case Receive(i, out, timeout) => ReceiveMutexes(s, i, out, timeout);
    case Tick => TickEffect(s);
    case Enter =>
    case Leave => ExitStep(s);
    case _ => SetupSpares(s, op);
  }

  // ----- How an owner changes

  /** The step is t's own unlock of m, or its end. */
  predicate GivesBack(s: State, op: Op, m: MutexId, t: TaskId) {
    s.current == Some(t) && ((op.Unlock? && op.lock == Some(m)) || op.Exit?)
  }

  /** The mutex was free and the running task's lock took it, or the running task owned it and gave
      it back: to the waiter that stood in front, or to nobody when nobody waited. */
  ghost predicate ChangedHands(s: State, op: Op, m: MutexId, r: State) {
    && s.current.Some? && s.mutexes[m].used
    && if s.mutexes[m].owner == None then
         op.Lock? && op.lock == Some(m) && r.mutexes[m].owner == s.current
       else
         && s.mutexes[m].owner == s.current && GivesBack(s, op, m, s.current.value)
         && r.mutexes[m].owner ==
            var q := At(s.lists, WaitList(MutexList(m))); if q == [] then None else Some(q[0])
  }

  lemma OwnerChanges(s: State, op: Op, m: MutexId, r: State)
    requires Inv(s) && Allowed(s, op) && r == Next(s, op)
    ensures r.mutexes[m].owner == s.mutexes[m].owner || ChangedHands(s, op, m, r)
  {
    if s.current == None {
      NobodyOwns(s, op, m);
    } else {
      match op
      case Lock(k, timeout) =>
        LockReplies(s, k, timeout, s.current.value, r);
        LockHands(s, m, k, timeout, s.current.value, r);
      case Unlock(k) =>
        UnlockReplies(s, k, s.current.value, r);
        UnlockHands(s, m, k, s.current.value, r);
      case Exit => ExitHands(s, m, s.current.value, r);
      case CreateMutex(k) => assert OwnerFits(s.tasks, s.mutexes[m]);
      case _ => MutexesUntouched(s, op);
    }
  }

  lemma LockHands(s: State, m: MutexId, k: Option<MutexId>, timeout: Tick, c: TaskId, r: State)
    requires s.current == Some(c) && LockReplied(s, k, timeout, c, r)
    ensures r.mutexes[m].owner == s.mutexes[m].owner || ChangedHands(s, Op.Lock(k, timeout), m, r)
  {
  }

  lemma UnlockHands(s: State, m: MutexId, k: Option<MutexId>, c: TaskId, r: State)
    requires s.current == Some(c) && UnlockReplied(s, k, c, r)
    ensures r.mutexes[m].owner == s.mutexes[m].owner || ChangedHands(s, Op.Unlock(k), m, r)
  {
  }

  lemma NobodyOwns(s: State, op: Op, m: MutexId)
    requires Inv(s) && Allowed(s, op) && s.current == None
    ensures Next(s, op).mutexes[m].owner == s.mutexes[m].owner
  {
    if IsCall(op) {
      NobodyCalls(s, op);
    } else if op.CreateMutex? {
      assert OwnerFits(s.tasks, s.mutexes[m]);
    } else {
      MutexesUntouched(s, op);
    }
  }

  lemma ExitHands(s: State, m: MutexId, c: TaskId, r: State)
    requires Inv(s) && s.current == Some(c) && r == TerminateCurrent(s)
    ensures r.mutexes[m].owner == s.mutexes[m].owner || ChangedHands(s, Op.Exit, m, r)
  {
    ExitEffect(s);
    assert Inherits(s, c, r);
  }

  // ----- Runs

  /** t does not give m back during the run. */
  ghost predicate Holds(s: State, ops: seq<Op>, m: MutexId, t: TaskId)
    decreases |ops|
  {
    ops == [] || (!GivesBack(s, ops[0], m, t) && Holds(Next(s, ops[0]), ops[1..], m, t))
  }

  /** Whoever owns a mutex owns it until it gives it back itself. */
  lemma {:induction false} OwnerStays(s: State, ops: seq<Op>, m: MutexId, t: TaskId)
    requires Inv(s) && AllowedRun(s, ops) && s.mutexes[m].owner == Some(t) && Holds(s, ops, m, t)
    ensures Run(s, ops).mutexes[m].owner == Some(t)
    decreases |ops|
  {
    if ops != [] {
      var r := Next(s, ops[0]);
      OwnerChanges(s, ops[0], m, r);
      NextKeeps(s, ops[0]);
      OwnerStays(r, ops[1..], m, t);
    }
  }

  /** Mutual exclusion: from the lock that was answered OK until t gives the mutex back, t owns it,
      and no other task's lock is granted or unlock accepted. */
  lemma LockExcludes(s: State, m: MutexId, timeout: Tick, t: TaskId, ops: seq<Op>)
    requires Reachable(s) && s.current == Some(t) && Allowed(s, Op.Lock(Some(m), timeout))
    requires var r := Next(s, Op.Lock(Some(m), timeout));
             Answered(r, t, Status.Ok) && AllowedRun(r, ops) && Holds(r, ops, m, t)
    ensures var e := Run(Next(s, Op.Lock(Some(m), timeout)), ops);
            e.mutexes[m].owner == Some(t) && forall c: TaskId :: c != t && e.current == Some(c) ==> Excluded(e, m, c)
  {
    ReachableInv(s);
    var op := Op.Lock(Some(m), timeout);
    var r := Next(s, op);
    LockReplies(s, Some(m), timeout, t, r);
    NextKeeps(s, op);
    OwnerStays(r, ops, m, t);
    RunKeeps(r, ops);
    var e := Run(r, ops);
    if e.current.Some? && e.current != Some(t) { OwnedExcludes(e, m, t, e.current.value); }
  }

  /** Neither locking nor unlocking m succeeds for the running task c. */
  ghost predicate Excluded(e: State, m: MutexId, c: TaskId) {
    && (forall n: Tick :: Allowed(e, Op.Lock(Some(m), n)) ==> !Answered(Next(e, Op.Lock(Some(m), n)), c, Status.Ok))
    && Answered(Next(e, Op.Unlock(Some(m))), c, NotOwner)
  }

  lemma OwnedExcludes(e: State, m: MutexId, t: TaskId, c: TaskId)
    requires Inv(e) && e.mutexes[m].owner == Some(t) && c != t && e.current == Some(c)
    ensures Excluded(e, m, c)
  {
    assert OwnerFits(e.tasks, e.mutexes[m]);
    forall n: Tick | Allowed(e, Op.Lock(Some(m), n))
      ensures !Answered(Next(e, Op.Lock(Some(m), n)), c, Status.Ok)
    {
      LockReplies(e, Some(m), n, c, Next(e, Op.Lock(Some(m), n)));
    }
    UnlockReplies(e, Some(m), c, Next(e, Op.Unlock(Some(m))));
  }
}
