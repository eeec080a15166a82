/** When each kernel call succeeds, is refused or puts its caller to sleep, told from the state before it. */
module Replies {
  import opened Wrappers
  import opened KernelState
  import opened Sched
  import opened KernelObjects
  import opened Invariants
  import opened StepProofs
  import opened ObjectProofs
  import opened MutexProofs
  import opened Machine
  import opened Effects

  /** The call has returned to c with this status. */
  predicate Answered(r: State, c: TaskId, status: Status) {
    r.tasks[c].state != BlockedObject && r.tasks[c].result == status
  }

  /** c may go on; it was told the status, and nothing else about its job differs. */
  predicate Told(s: State, r: State, c: TaskId, status: Status) {
    SameJob(s.tasks[c].(result := status), r.tasks[c])
  }

  /** Nothing but the status told to c differs. */
  predicate OnlyAnswered(s: State, r: State, c: TaskId, status: Status) {
    r == s.(tasks := s.tasks[c := s.tasks[c].(result := status)])
  }

  /** c now sleeps at l, and no kernel object has changed. */
  predicate WaitsAt(s: State, r: State, c: TaskId, l: WaitId) {
    && r.tasks[c].state == BlockedObject && r.tasks[c].wait == Some(l)
    && r.sems == s.sems && r.queues == s.queues && r.mutexes == s.mutexes
  }

  predicate SemUsed(s: State, i: Option<SemId>) {
    i.Some? && s.sems[i.value].used
  }

  predicate QueueUsed(s: State, i: Option<QueueId>) {
    i.Some? && s.queues[i.value].used
  }

  predicate MutexUsed(s: State, m: Option<MutexId>) {
    m.Some? && s.mutexes[m.value].used
  }

  /** In states with the invariant a handle is valid exactly when its object was created. */
  lemma UsedIsValid(s: State)
    requires Objects(s)
    ensures forall i: Option<SemId> :: SemIsValid(s, i) <==> SemUsed(s, i)
    ensures forall i: Option<QueueId> :: QueueIsValid(s, i) <==> QueueUsed(s, i)
  {
    forall i: Option<SemId> ensures SemIsValid(s, i) <==> SemUsed(s, i) {
      if i.Some? { assert SemFits(s.sems[i.value]); }
    }
    forall i: Option<QueueId> ensures QueueIsValid(s, i) <==> QueueUsed(s, i) {
      if i.Some? { assert QueueFits(s.queues[i.value]); }
    }
  }

  lemma ParkedWaits(s: State, c: TaskId, l: WaitId, cell: Message, timeout: Tick)
    requires Inv(s) && s.current == Some(c) && timeout != 0
    ensures WaitsAt(s, WaitBlock(s, l, cell, timeout), c, l)
  {
    ParkSpares(s, l, cell, timeout);
  }

  // ----- Semaphores

  /** Taking succeeds at once exactly when a unit is there, whatever the timeout; without one the
      caller is refused exactly when it will not wait. */
  lemma TakeReplies(s: State, i: Option<SemId>, timeout: Tick, c: TaskId, r: State)
    requires Inv(s) && s.current == Some(c) && r == Next(s, Op.Take(i, timeout))
    ensures TakeReplied(s, i, timeout, c, r)
  {
    UsedIsValid(s);
    TakeReply(s, i, timeout, c, r);
  }

  ghost predicate TakeReplied(s: State, i: Option<SemId>, timeout: Tick, c: TaskId, r: State) {
    && (Answered(r, c, Status.Ok) <==> SemUsed(s, i) && s.sems[i.value].count > 0)
    && (Answered(r, c, Timeout) <==> SemUsed(s, i) && s.sems[i.value].count == 0 && timeout == 0)
    && (Answered(r, c, InvalidArgument) <==> !SemUsed(s, i))
    && (r.tasks[c].state == BlockedObject <==> SemUsed(s, i) && s.sems[i.value].count == 0 && timeout != 0)
    && (r.tasks[c].state == BlockedObject ==> WaitsAt(s, r, c, SemList(i.value)))
    && (Answered(r, c, Timeout) || Answered(r, c, InvalidArgument) ==> OnlyAnswered(s, r, c, r.tasks[c].result))
    && (Answered(r, c, Status.Ok) ==>
          OnlyAnswered(s.(sems := s.sems[i.value := s.sems[i.value].(count := s.sems[i.value].count - 1)]),
                       r, c, Status.Ok))
  }

  lemma TakeReply(s: State, i: Option<SemId>, timeout: Tick, c: TaskId, r: State)
    requires Inv(s) && s.current == Some(c) && r == TakeCurrent(s, i, timeout) && (SemIsValid(s, i) <==> SemUsed(s, i))
    ensures TakeReplied(s, i, timeout, c, r)
  {
    if SemUsed(s, i) && s.sems[i.value].count == 0 && timeout != 0 {
      ParkedWaits(s, c, SemList(i.value), s.tasks[c].cell, timeout);
    }
  }

  /** A unit given goes to the front waiter or to the count. */
  ghost predicate GivenSems(s: State, i: Option<SemId>, r: State) {
    r.sems == if SemUsed(s, i) && s.sems[i.value].count < s.sems[i.value].maximum
                 && At(s.lists, WaitList(SemList(i.value))) == []
              then s.sems[i.value := s.sems[i.value].(count := s.sems[i.value].count + 1)] else s.sems
  }

  function GiveStatus(s: State, i: Option<SemId>): Status {
    if !SemUsed(s, i) then InvalidArgument
    else if s.sems[i.value].count == s.sems[i.value].maximum then LimitReached
    else Status.Ok
  }

  /** Giving, by a task or an interrupt, is refused exactly at the maximum. */
  lemma GiveAnyReplies(s: State, i: Option<SemId>)
    requires Inv(s)
    ensures GiveAny(s, i).1 == GiveStatus(s, i) && GivenSems(s, i, GiveAny(s, i).0)
    ensures GiveStatus(s, i) != Status.Ok ==> GiveAny(s, i).0 == s && GiveAny(s, i).2 == None
  {
    UsedIsValid(s);
    if SemUsed(s, i) {
      assert SemFits(s.sems[i.value]);
      if At(s.lists, WaitList(SemList(i.value))) != [] {
        FrontWaits(s, SemList(i.value));
        assert WaitFits(s, At(s.lists, WaitList(SemList(i.value)))[0]);
      }
      GiveAnyEffect(s, i.value);
    }
  }

  /** A task may go on after giving; it is told whether the unit was accepted. */
  lemma GiveReplies(s: State, i: Option<SemId>, c: TaskId, r: State)
    requires Inv(s) && s.current == Some(c) && r == Next(s, Op.Give(i))
    ensures Answered(r, c, GiveStatus(s, i)) && Told(s, r, c, GiveStatus(s, i)) && GivenSems(s, i, r)
    ensures GiveStatus(s, i) != Status.Ok ==> OnlyAnswered(s, r, c, GiveStatus(s, i))
  {
    GaveQuietly(s, i);
    GiveAnyReplies(s, i);
    GiveReply(s, i, c, GiveAny(s, i).0, r);
  }

  lemma GiveReply(s: State, i: Option<SemId>, c: TaskId, s1: State, r: State)
    requires Inv(s) && s.current == Some(c) && s1 == GiveAny(s, i).0 && r == GiveCurrent(s, i)
    requires GiveAny(s, i).1 == GiveStatus(s, i) && GivenSems(s, i, s1)
    requires Quiet(SetResult(s1, c, GiveStatus(s, i)), r)
    requires GiveStatus(s, i) != Status.Ok ==> s1 == s && GiveAny(s, i).2 == None
    ensures Answered(r, c, GiveStatus(s, i)) && Told(s, r, c, GiveStatus(s, i)) && GivenSems(s, i, r)
    ensures GiveStatus(s, i) != Status.Ok ==> OnlyAnswered(s, r, c, GiveStatus(s, i))
  {
    assert s1.tasks[c] == s.tasks[c] by { GiverStays(s, i, c); }
    assert SameJob(SetResult(s1, c, GiveStatus(s, i)).tasks[c], r.tasks[c]);
  }

  lemma GiverStays(s: State, i: Option<SemId>, c: TaskId)
    requires Inv(s) && s.current == Some(c)
    ensures GiveAny(s, i).0.tasks[c] == s.tasks[c]
  {
    if SemIsValid(s, i) && At(s.lists, WaitList(SemList(i.value))) != [] {
      var l := SemList(i.value);
      FrontWaits(s, l);
      ServeKeeps(s, l, WaitPop(s, l).0, WaitPop(s, l).1.value);
    }
  }

  lemma GiveIsrReplies(s: State, i: Option<SemId>)
    requires Inv(s)
    ensures GivenSems(s, i, Next(s, Op.GiveIsr(i)))
  {
    GiveIsrQuietly(s, i);
    EnterStep(s);
    GiveAnyReplies(EnterCritical(s), i);
  }

  // ----- Message queues

  /** Sending succeeds at once exactly when the ring is not full: receivers wait only at an empty one. */
  ghost predicate SendReplied(s: State, i: Option<QueueId>, item: Option<Message>, timeout: Tick, c: TaskId, r: State) {
    var usable := QueueUsed(s, i) && item.Some?;
    && (Answered(r, c, Status.Ok) <==> usable && s.queues[i.value].count < s.queues[i.value].capacity)
    && (Answered(r, c, Timeout) <==>
          usable && s.queues[i.value].count == s.queues[i.value].capacity && timeout == 0)
    && (Answered(r, c, InvalidArgument) <==> !usable)
    && (r.tasks[c].state == BlockedObject <==>
          usable && s.queues[i.value].count == s.queues[i.value].capacity && timeout != 0)
    && (r.tasks[c].state == BlockedObject ==> WaitsAt(s, r, c, SendList(i.value)) && r.tasks[c].cell == item.value)
    && (Answered(r, c, Status.Ok) ==> Told(s, r, c, Status.Ok))
    && (Answered(r, c, Timeout) || Answered(r, c, InvalidArgument) ==> OnlyAnswered(s, r, c, r.tasks[c].result))
  }

  lemma SendReplies(s: State, i: Option<QueueId>, item: Option<Message>, timeout: Tick, c: TaskId, r: State)
    requires Inv(s) && s.current == Some(c) && r == Next(s, Op.Send(i, item, timeout))
    ensures SendReplied(s, i, item, timeout, c, r)
  {
    UsedIsValid(s);
    if QueueUsed(s, i) && item.Some? { SendUsable(s, i.value, item.value, timeout, c, r); }
  }

  lemma SendUsable(s: State, i: QueueId, item: Message, timeout: Tick, c: TaskId, r: State)
    requires Inv(s) && s.current == Some(c) && QueueIsValid(s, Some(i))
             && r == SendCurrent(s, Some(i), Some(item), timeout)
    ensures SendReplied(s, Some(i), Some(item), timeout, c, r)
  {
    SendUnfolds(s, i, item, timeout);
    if WaitPop(s, ReceiveList(i)).1.Some? {
      ReceiversWaitAtEmpty(s, i);
      SendDirectEffect(s, i, item);
    } else if s.queues[i].count == s.queues[i].capacity && timeout != 0 {
      ParkSpares(s, SendList(i), item, timeout);
    }
  }

  lemma ReceiversWaitAtEmpty(s: State, i: QueueId)
    requires Inv(s) && WaitPop(s, ReceiveList(i)).1.Some? && s.queues[i].used
    ensures s.queues[i].count == 0 < s.queues[i].capacity
  {
    FrontWaits(s, ReceiveList(i));
    assert WaitFits(s, At(s.lists, WaitList(ReceiveList(i)))[0]) && QueueFits(s.queues[i]);
  }

  /** Receiving succeeds at once exactly when the ring is not empty. */
  ghost predicate ReceiveReplied(s: State, i: Option<QueueId>, out: bool, timeout: Tick, c: TaskId, r: State) {
    var usable := QueueUsed(s, i) && out;
    && (Answered(r, c, Status.Ok) <==> usable && s.queues[i.value].count > 0)
    && (Answered(r, c, Timeout) <==> usable && s.queues[i.value].count == 0 && timeout == 0)
    && (Answered(r, c, InvalidArgument) <==> !usable)
    && (r.tasks[c].state == BlockedObject <==> usable && s.queues[i.value].count == 0 && timeout != 0)
    && (r.tasks[c].state == BlockedObject ==> WaitsAt(s, r, c, ReceiveList(i.value)))
    && (Answered(r, c, Status.Ok) ==> Told(SetCell(s, c, r.tasks[c].cell), r, c, Status.Ok))
    && (Answered(r, c, Timeout) || Answered(r, c, InvalidArgument) ==> OnlyAnswered(s, r, c, r.tasks[c].result))
  }

  lemma ReceiveReplies(s: State, i: Option<QueueId>, out: bool, timeout: Tick, c: TaskId, r: State)
    requires Inv(s) && s.current == Some(c) && r == Next(s, Op.Receive(i, out, timeout))
    ensures ReceiveReplied(s, i, out, timeout, c, r)
  {
    UsedIsValid(s);
    if QueueUsed(s, i) && out { ReceiveUsable(s, i.value, timeout, c, r); }
  }

  lemma ReceiveUsable(s: State, i: QueueId, timeout: Tick, c: TaskId, r: State)
    requires Inv(s) && s.current == Some(c) && QueueIsValid(s, Some(i))
             && r == ReceiveCurrent(s, Some(i), true, timeout)
    ensures ReceiveReplied(s, Some(i), true, timeout, c, r)
  {
    if s.queues[i].count > 0 {
      ReceiveUnfolds(s, i, timeout);
      if WaitPop(s, SendList(i)).1.Some? { RefillEffect(s, i); }
    } else if timeout != 0 {
      ParkedWaits(s, c, ReceiveList(i), s.tasks[c].cell, timeout);
    }
  }

  // ----- Mutexes

  /** Locking succeeds at once exactly when the mutex is free, and then makes the caller its owner. */
  ghost predicate LockReplied(s: State, m: Option<MutexId>, timeout: Tick, c: TaskId, r: State) {
    var others := MutexUsed(s, m) && s.mutexes[m.value].owner.Some? && s.mutexes[m.value].owner != Some(c);
    && (Answered(r, c, Status.Ok) <==> MutexUsed(s, m) && s.mutexes[m.value].owner == None)
    && (Answered(r, c, BadState) <==> MutexUsed(s, m) && s.mutexes[m.value].owner == Some(c))
    && (Answered(r, c, Timeout) <==> others && timeout == 0)
    && (Answered(r, c, InvalidArgument) <==> !MutexUsed(s, m))
    && (r.tasks[c].state == BlockedObject <==> others && timeout != 0)
    && (r.tasks[c].state == BlockedObject ==> WaitsAt(s, r, c, MutexList(m.value)))
    && (r.tasks[c].state != BlockedObject && r.tasks[c].result != Status.Ok ==>
          OnlyAnswered(s, r, c, r.tasks[c].result))
    && (Answered(r, c, Status.Ok) ==>
          OnlyAnswered(s.(mutexes := s.mutexes[m.value := s.mutexes[m.value].(owner := Some(c))]), r, c, Status.Ok))
  }

  lemma LockReplies(s: State, m: Option<MutexId>, timeout: Tick, c: TaskId, r: State)
    requires Inv(s) && s.current == Some(c) && Allowed(s, Op.Lock(m, timeout)) && r == Next(s, Op.Lock(m, timeout))
    ensures LockReplied(s, m, timeout, c, r)
  {
    LockReply(s, m, timeout, c, r);
  }

  lemma LockReply(s: State, m: Option<MutexId>, timeout: Tick, c: TaskId, r: State)
    requires Inv(s) && s.current == Some(c) && !IsIdle(s.tasks[c]) && r == LockCurrent(s, m, timeout)
    ensures LockReplied(s, m, timeout, c, r)
  {
    if MutexUsed(s, m) && s.mutexes[m.value].owner.Some? && s.mutexes[m.value].owner != s.current && timeout != 0 {
      LockWaits(s, m.value, timeout, c, r);
    }
  }

  lemma LockWaits(s: State, m: MutexId, timeout: Tick, c: TaskId, r: State)
    requires Inv(s) && s.current == Some(c) && !IsIdle(s.tasks[c]) && r == LockCurrent(s, Some(m), timeout)
    requires s.mutexes[m].used && s.mutexes[m].owner.Some? && s.mutexes[m].owner != s.current && timeout != 0
    ensures WaitsAt(s, r, c, MutexList(m))
  {
    var s2 := WaitBlock(s, MutexList(m), s.tasks[c].cell, timeout);
    ParkedWaits(s, c, MutexList(m), s.tasks[c].cell, timeout);
    assert Quiet(s2, r) by { LockQuietly(s, m, timeout); }
    assert SameJob(s2.tasks[c], r.tasks[c]);
  }

  /** Only the owner can unlock; the mutex then goes to the front waiter or becomes free. */
  ghost predicate UnlockReplied(s: State, m: Option<MutexId>, c: TaskId, r: State) {
    && Told(s, r, c, r.tasks[c].result) && Runnable(r.tasks[c].state)
    && (Answered(r, c, Status.Ok) <==> MutexUsed(s, m) && s.mutexes[m.value].owner == Some(c))
    && (Answered(r, c, NotOwner) <==> MutexUsed(s, m) && s.mutexes[m.value].owner != Some(c))
    && (Answered(r, c, InvalidArgument) <==> !MutexUsed(s, m))
    && (!Answered(r, c, Status.Ok) ==> OnlyAnswered(s, r, c, r.tasks[c].result))
    && (Answered(r, c, Status.Ok) ==>
          var q := At(s.lists, WaitList(MutexList(m.value)));
          var free := s.(mutexes := s.mutexes[m.value := s.mutexes[m.value].(owner := None)]);
          if q == [] then OnlyAnswered(free, r, c, Status.Ok)
          else r.mutexes == s.mutexes[m.value := s.mutexes[m.value].(owner := Some(q[0]))])
  }

  lemma UnlockReplies(s: State, m: Option<MutexId>, c: TaskId, r: State)
    requires Inv(s) && s.current == Some(c) && r == Next(s, Op.Unlock(m))
    ensures UnlockReplied(s, m, c, r)
  {
    if MutexUsed(s, m) && s.mutexes[m.value].owner == Some(c) {
      if At(s.lists, WaitList(MutexList(m.value))) == [] {
        UnlockFreeReply(s, m.value, c, r);
      } else {
        UnlockPassReply(s, m.value, c, r);
      }
    }
  }

  lemma UnlockFreeReply(s: State, m: MutexId, c: TaskId, r: State)
    requires Inv(s) && s.current == Some(c) && s.mutexes[m].used && s.mutexes[m].owner == Some(c)
    requires At(s.lists, WaitList(MutexList(m))) == [] && r == UnlockCurrent(s, Some(m))
    ensures UnlockReplied(s, Some(m), c, r)
  {
    var s1 := SetResult(PassOn(s, m).0, c, Status.Ok);
    assert PrioritiesInherited(s1) by { UnlockFreeInv(s, m); }
    RecomputeIdempotent(s1);
  }

  lemma UnlockPassReply(s: State, m: MutexId, c: TaskId, r: State)
    requires Inv(s) && s.current == Some(c) && s.mutexes[m].used && s.mutexes[m].owner == Some(c)
    requires At(s.lists, WaitList(MutexList(m))) != [] && r == UnlockCurrent(s, Some(m))
    ensures UnlockReplied(s, Some(m), c, r)
  {
    var w := PassOn(s, m).1.value;
    var s1 := SetResult(PassOn(s, m).0, c, Status.Ok);
    UnlockHandsOver(s, m, w, s1, r);
    PassedReply(s, m, c, w, s1, MakeReady(WaitersChanged(s1), w, Status.Ok), r);
  }

  lemma PassedReply(s: State, m: MutexId, c: TaskId, w: TaskId, s1: State, d: State, r: State)
    requires s.current == Some(c) && s.tasks[c].state == Running && s.mutexes[m].used && s.mutexes[m].owner == Some(c)
    requires PassOn(s, m).1 == Some(w) && w != c && s1 == SetResult(PassOn(s, m).0, c, Status.Ok)
    requires Delivered(s1, w, d) && Quiet(d, r)
    ensures UnlockReplied(s, Some(m), c, r)
  {
    assert SameJob(d.tasks[c], r.tasks[c]);
  }

  // ----- When a call puts its caller to sleep

  /** The calls that may block their caller. */
  predicate MayBlock(op: Op) {
    op.Take? || op.Send? || op.Receive? || op.Lock?
  }

  /** What the call asks for is not there, and its caller is willing to wait. */
  predicate MustWait(s: State, op: Op) {
    match op
    case Take(i, timeout) => SemUsed(s, i) && s.sems[i.value].count == 0 && timeout != 0
    case Send(i, item, timeout) =>
      QueueUsed(s, i) && item.Some? && s.queues[i.value].count == s.queues[i.value].capacity && timeout != 0
    case Receive(i, out, timeout) => QueueUsed(s, i) && out && s.queues[i.value].count == 0 && timeout != 0
    case Lock(m, timeout) =>
      && MutexUsed(s, m) && s.mutexes[m.value].owner.Some? && s.mutexes[m.value].owner != s.current && timeout != 0
    case _ => false
  }

  lemma SleepsExactlyWhen(s: State, op: Op, c: TaskId, r: State)
    requires Inv(s) && Allowed(s, op) && MayBlock(op) && s.current == Some(c) && r == Next(s, op)
    ensures r.tasks[c].state == BlockedObject <==> MustWait(s, op)
  {
    match op
    case Take(i, timeout) => TakeReplies(s, i, timeout, c, r);
    case Send(i, item, timeout) => SendReplies(s, i, item, timeout, c, r);
    case Receive(i, out, timeout) => ReceiveReplies(s, i, out, timeout, c, r);
    case Lock(m, timeout) => LockReplies(s, m, timeout, c, r);
  }

  // ----- Calls while nothing runs

  /** The calls only a running task can make. */
  predicate IsCall(op: Op) {
    MayBlock(op) || op.Yield? || op.Delay? || op.Give? || op.Unlock? || op.Exit?
  }

  lemma NobodyCalls(s: State, op: Op)
    requires IsCall(op) && s.current == None
    ensures Next(s, op) == s
  {
  }
}
