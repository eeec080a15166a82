/** First in, first out among equal deadlines: sleepers keep their order and wake in it. */
module DelayOrder {
  import opened Wrappers
  import opened KernelState
  import opened TaskLists
  import opened Sched
  import opened KernelObjects
  import opened Time
  import opened DelayLists
  import opened Invariants
  import opened StepProofs
  import opened ObjectProofs
  import opened MutexProofs
  import opened TickProofs
  import opened Machine
  import opened Effects
  import opened WaitOrder

  /** Wherever a sleeps before b, it still does. */
  ghost predicate KeepsSleepers(s: State, r: State, a: TaskId, b: TaskId) {
    forall d: DelayIndex :: Before(s.delayed[d], a, b) ==> Before(r.delayed[d], a, b)
  }

  /** t sleeps in the same delay list before and after. */
  ghost predicate SleepsOn(s: State, r: State, t: TaskId) {
    s.tasks[t].delayList.Some? && r.tasks[t].delayList == s.tasks[t].delayList
  }

  lemma KeepsSleepersTrans(s: State, m: State, r: State, a: TaskId, b: TaskId)
    requires KeepsSleepers(s, m, a, b) && KeepsSleepers(m, r, a, b)
    ensures KeepsSleepers(s, r, a, b)
  {
  }

  // ----- Operations on the delay lists

  lemma RemoveSleepers(s: State, t: TaskId, a: TaskId, b: TaskId)
    requires t != a && t != b
    ensures KeepsSleepers(s, DelayRemove(s, t), a, b)
  {
    forall d: DelayIndex | Before(s.delayed[d], a, b) ensures Before(DelayRemove(s, t).delayed[d], a, b) {
      if t in s.delayed[d] { BeforeWithout(s.delayed[d], t, a, b); }
    }
  }

  lemma InsertSleepers(s: State, t: TaskId, target: Tick, a: TaskId, b: TaskId)
    requires t != a && t != b
    ensures KeepsSleepers(s, DelayInsert(s, t, target), a, b)
  {
    RemoveSleepers(s, t, a, b);
    var s1 := DelayRemove(s, t);
    forall d: DelayIndex | Before(s1.delayed[d], a, b) ensures Before(DelayInsert(s, t, target).delayed[d], a, b) {
      BeforeInsert(s1.delayed[d], WakePos(s1.tasks, s1.delayed[d], target), t, a, b);
    }
  }

  lemma MakeReadySleepers(s: State, t: TaskId, result: Status, a: TaskId, b: TaskId)
    requires t != a && t != b
    ensures KeepsSleepers(s, MakeReady(s, t, result), a, b)
  {
    RemoveSleepers(s, t, a, b);
  }

  lemma PopSleepers(s: State, a: TaskId, b: TaskId)
    requires s.delayed[s.px] != [] && s.delayed[s.px][0] != a
    ensures KeepsSleepers(s, PopDelayed(s), a, b)
  {
    if Before(s.delayed[s.px], a, b) { BeforePop(s.delayed[s.px], a, b); }
  }

  /** A task that starts to sleep goes behind every sleeper of its list that wakes no later. */
  lemma SleepsBehindEquals(s: State, d: DelayIndex, c: TaskId, t: TaskId, target: Tick)
    requires s.tasks[c].delayList == None && t in s.delayed[d] && t != c && ByWakeTick(s.tasks, s.delayed[d])
    requires d == if target < s.tick then 1 - s.px else s.px
    ensures var q := DelayInsert(s, c, target).delayed[d];
            if s.tasks[t].wakeTick <= target then Before(q, t, c) else Before(q, c, t)
  {
    assert DelayInsert(s, c, target).delayed[d] == InsertAt(s.delayed[d], WakePos(s.tasks, s.delayed[d], target), c);
    InsertedBehind(s.tasks, s.delayed[d], c, t, target);
  }

  lemma InsertedBehind(tasks: TaskPool, q: seq<TaskId>, c: TaskId, t: TaskId, target: Tick)
    requires t in q && ByWakeTick(tasks, q)
    ensures var r := InsertAt(q, WakePos(tasks, q, target), c);
            if tasks[t].wakeTick <= target then Before(r, t, c) else Before(r, c, t)
  {
    var k := WakePos(tasks, q, target);
    var r := InsertAt(q, k, c);
    var i :| 0 <= i < |q| && q[i] == t;
    assert r[k] == c;
    if i < k { assert r[i] == t; } else { assert r[i + 1] == t && tasks[q[k]].wakeTick <= tasks[q[i]].wakeTick; }
  }

  // ----- Kernel calls

  lemma ParkSleepers(s: State, c: TaskId, l: WaitId, cell: Message, n: Tick, a: TaskId, b: TaskId)
    requires c != a && c != b
    ensures KeepsSleepers(s, Park(s, c, l, cell, n), a, b)
  {
    var s1 := SetTask(s, c,
      s.tasks[c].(wait := Some(l), cell := cell, deadline := Deadline(s, n), result := BadState,
      state := BlockedObject));
    InsertSleepers(WaitInsert(s1, l, c), c, Deadline(s, n), a, b);
  }

  lemma BlockSleepers(s: State, l: WaitId, cell: Message, timeout: Tick, a: TaskId, b: TaskId)
    requires s.current != Some(a) && s.current != Some(b)
    ensures KeepsSleepers(s, WaitBlock(s, l, cell, timeout), a, b)
  {
    if CurrentRuns(s) {
      var s1 := Park(s, s.current.value, l, cell, ClampTimeout(timeout));
      ParkSleepers(s, s.current.value, l, cell, ClampTimeout(timeout), a, b);
      PickDelays(s1);
    }
  }

  lemma PickDelays(s: State)
    ensures PickNext(s).delayed == s.delayed
  {
  }

  lemma ScheduleDelays(s: State, rotate: bool)
    ensures Schedule(s, rotate).delayed == s.delayed
  {
  }

  lemma PreemptDelays(s: State, w: TaskId)
    ensures MaybePreempt(s, w).delayed == s.delayed
  {
    ScheduleDelays(s, false);
  }

  lemma ServeSleepers(s: State, w: TaskId, a: TaskId, b: TaskId)
    requires w != a && w != b
    ensures KeepsSleepers(s, Serve(s, w), a, b)
  {
    MakeReadySleepers(s, w, Status.Ok, a, b);
    PreemptDelays(MakeReady(s, w, Status.Ok), w);
  }

  lemma DelaySleepers(s: State, n: Tick, a: TaskId, b: TaskId)
    requires s.current != Some(a) && s.current != Some(b)
    ensures KeepsSleepers(s, DelayCurrent(s, n), a, b)
  {
    if CurrentRuns(s) {
      var c := s.current.value;
      if n == 0 {
        PickDelays(Requeue(s, c));
      } else {
        var s1 := SetTask(s, c, s.tasks[c].(state := BlockedDelay));
        InsertSleepers(s1, c, WakeTarget(s, ClampDelay(n)), a, b);
        PickDelays(Sleep(s, c, ClampDelay(n)));
      }
    }
  }

  lemma TakeSleepers(s: State, i: Option<SemId>, timeout: Tick, a: TaskId, b: TaskId)
    requires s.current != Some(a) && s.current != Some(b)
    ensures KeepsSleepers(s, TakeCurrent(s, i, timeout), a, b)
  {
    if CurrentRuns(s) && SemIsValid(s, i) {
      BlockSleepers(s, SemList(i.value), s.tasks[s.current.value].cell, timeout, a, b);
    }
  }

  /** Neither a nor b is at the front of a waiting list that the step serves. */
  ghost predicate FrontIsOther(s: State, l: WaitId, a: TaskId, b: TaskId) {
    WaitPop(s, l).1 != Some(a) && WaitPop(s, l).1 != Some(b)
  }

  lemma GiveAnySleepers(s: State, i: Option<SemId>, a: TaskId, b: TaskId)
    requires SemIsValid(s, i) ==> FrontIsOther(s, SemList(i.value), a, b)
    ensures KeepsSleepers(s, GiveAny(s, i).0, a, b)
  {
    if SemIsValid(s, i) {
      var (s1, w) := WaitPop(s, SemList(i.value));
      if w.Some? { MakeReadySleepers(s1, w.value, Status.Ok, a, b); }
    }
  }

  lemma GiveSleepers(s: State, i: Option<SemId>, a: TaskId, b: TaskId)
    requires CurrentRuns(s) && SemIsValid(s, i) ==> FrontIsOther(s, SemList(i.value), a, b)
    ensures KeepsSleepers(s, GiveCurrent(s, i), a, b)
  {
    if CurrentRuns(s) {
      GiveAnySleepers(s, i, a, b);
      var (s1, status, w) := GiveAny(s, i);
      if w.Some? { PreemptDelays(SetResult(s1, s.current.value, status), w.value); }
    }
  }

  lemma LeaveDelays(s: State)
    ensures ExitCritical(s).delayed == s.delayed
  {
    CriticalUnfolds(s);
    ScheduleDelays(s.(nesting := 0, pending := false), false);
  }

  lemma GiveIsrSleepers(s: State, i: Option<SemId>, a: TaskId, b: TaskId)
    requires SemIsValid(s, i) ==> FrontIsOther(s, SemList(i.value), a, b)
    ensures KeepsSleepers(s, GiveFromIsr(s, i), a, b)
  {
    var s0 := EnterCritical(s);
    GiveAnySleepers(s0, i, a, b);
    var (s1, _, w) := GiveAny(s0, i);
    if w.Some? { PreemptDelays(s1, w.value); }
    LeaveDelays(if w.Some? then MaybePreempt(s1, w.value) else s1);
  }

  lemma SendSleepers(s: State, i: QueueId, item: Message, timeout: Tick, a: TaskId, b: TaskId)
    requires CurrentRuns(s) && QueueIsValid(s, Some(i)) && FrontIsOther(s, ReceiveList(i), a, b)
    requires s.current != Some(a) && s.current != Some(b)
    ensures KeepsSleepers(s, SendCurrent(s, Some(i), Some(item), timeout), a, b)
  {
    SendUnfolds(s, i, item, timeout);
    BlockSleepers(s, SendList(i), item, timeout, a, b);
    var w := WaitPop(s, ReceiveList(i)).1;
    if w.Some? { ServeSleepers(Delivery(s, i, item), w.value, a, b); }
  }

  lemma ReceiveSleepers(s: State, i: QueueId, timeout: Tick, a: TaskId, b: TaskId)
    requires CurrentRuns(s) && QueueIsValid(s, Some(i)) && s.queues[i].count > 0 && FrontIsOther(s, SendList(i), a, b)
    ensures KeepsSleepers(s, ReceiveCurrent(s, Some(i), true, timeout), a, b)
  {
    ReceiveUnfolds(s, i, timeout);
    var w := WaitPop(s, SendList(i)).1;
    if w.Some? {
      ServeSleepers(Refill(s, i, w.value), w.value, a, b);
      assert Refill(s, i, w.value).delayed == s.delayed;
    }
  }

  lemma LockSleepers(s: State, m: Option<MutexId>, timeout: Tick, a: TaskId, b: TaskId)
    requires s.current != Some(a) && s.current != Some(b)
    ensures KeepsSleepers(s, LockCurrent(s, m, timeout), a, b)
  {
    if CurrentRuns(s) && MutexIsValid(s, m) && s.mutexes[m.value].owner.Some? && s.mutexes[m.value].owner != s.current
      && timeout != 0 {
      var s2 := WaitBlock(s, MutexList(m.value), s.tasks[s.current.value].cell, timeout);
      BlockSleepers(s, MutexList(m.value), s.tasks[s.current.value].cell, timeout, a, b);
      ScheduleDelays(WaitersChanged(s2), false);
    }
  }

  lemma UnlockSleepers(s: State, m: Option<MutexId>, a: TaskId, b: TaskId)
    requires UnlockWorks(s, m) ==> FrontIsOther(s, MutexList(m.value), a, b)
    ensures KeepsSleepers(s, UnlockCurrent(s, m), a, b)
  {
    if UnlockWorks(s, m) {
      var (s1, w) := PassOn(s, m.value);
      var s2 := WaitersChanged(SetResult(s1, s.current.value, Status.Ok));
      if w.Some? { ServeSleepers(s2, w.value, a, b); }
    }
  }

  lemma {:induction false} ReleaseSleepers(s: State, c: TaskId, k: nat, a: TaskId, b: TaskId)
    requires Orderly(s, c) && SleepsOn(s, ReleaseFrom(s, c, k), a) && SleepsOn(s, ReleaseFrom(s, c, k), b)
    ensures KeepsSleepers(s, ReleaseFrom(s, c, k), a, b)
    decreases MAX_MUTEXES - k
  {
    if k < MAX_MUTEXES {
      var s1 := ReleaseOne(s, c, k);
      ReleaseOneKeeps(s, c, k);
      ReleaseFromEffect(s1, c, k + 1);
      ReleaseOneSleepers(s, c, k, ReleaseFrom(s, c, k), a, b);
      ReleaseSleepers(s1, c, k + 1, a, b);
      KeepsSleepersTrans(s, s1, ReleaseFrom(s, c, k), a, b);
    }
  }

  lemma ReleaseOneSleepers(s: State, c: TaskId, k: MutexId, r: State, a: TaskId, b: TaskId)
    requires Orderly(s, c) && ReleaseEffect(ReleaseOne(s, c, k), c, k + 1, r) && SleepsOn(s, r, a) && SleepsOn(s, r, b)
    ensures var s1 := ReleaseOne(s, c, k); KeepsSleepers(s, s1, a, b) && SleepsOn(s1, r, a) && SleepsOn(s1, r, b)
  {
    if Owns(s, c, k) && PassOn(s, k).1.Some? {
      var w := PassOn(s, k).1.value;
      PassOnServes(s, c, k, w);
      if w != a && w != b { MakeReadySleepers(PassOn(s, k).0, w, Status.Ok, a, b); }
    }
  }

  lemma ExitSleepers(s: State, c: TaskId, r: State, a: TaskId, b: TaskId)
    requires Inv(s) && s.current == Some(c) && r == TerminateCurrent(s) && SleepsOn(s, r, a) && SleepsOn(s, r, b)
    requires c != a && c != b
    ensures KeepsSleepers(s, r, a, b)
  {
    var s1, s2 := ReleaseFrom(s, c, 0), ReleaseTask(s, c);
    ExitSleepsOn(s, c, s1, s2, r, a);
    ExitSleepsOn(s, c, s1, s2, r, b);
    ReleaseSleepers(s, c, 0, a, b);
    PickDelays(SetTask(s2, c, s2.tasks[c].(state := Terminated)));
  }

  lemma ExitSleepsOn(s: State, c: TaskId, s1: State, s2: State, r: State, a: TaskId)
    requires Inv(s) && s.current == Some(c) && s1 == ReleaseFrom(s, c, 0) && s2 == ReleaseTask(s, c)
             && r == TerminateCurrent(s)
    requires SleepsOn(s, r, a) && a != c
    ensures Orderly(s1, c) && SleepsOn(s, s1, a)
  {
    var s3 := SetTask(s2, c, s2.tasks[c].(state := Terminated));
    assert r == PickNext(s3) by { ExitIs(s, c); }
    ReleasedFrame(s, c, s1);
    MaybeRecomputed(s, c, s1, s2);
    RetiredSwitch(s, c, s2, s3);
    assert SameJob(s1.tasks[a], s2.tasks[a]) && SameJob(s3.tasks[a], r.tasks[a]);
  }

  // ----- Ticks

  lemma ExpireHeadSleepers(s: State, a: TaskId, b: TaskId)
    requires s.delayed[s.px] != [] && s.delayed[s.px][0] != a && s.delayed[s.px][0] != b
    ensures KeepsSleepers(s, ExpireHead(s), a, b)
  {
    var t := s.delayed[s.px][0];
    PopSleepers(s, a, b);
    MakeReadySleepers(LeaveWaitList(PopDelayed(s), t), t, Timeout, a, b);
  }

  lemma {:induction false} ExpireLoopSleepers(s: State, woke: bool, r: State, a: TaskId, b: TaskId)
    requires Ticking(s) && r == ExpireLoop(s, woke).0 && SleepsOn(s, r, a) && SleepsOn(s, r, b)
    ensures KeepsSleepers(s, r, a, b)
    decreases |s.delayed[s.px]|
  {
    if HeadIsDue(s) {
      var t, s1 := s.delayed[s.px][0], ExpireHead(s);
      ExpireHeadKeeps(s);
      ExpireLoopElapse(s1, woke || Outranks(s1, t));
      SleepsThrough(s, t, s1, r, a);
      SleepsThrough(s, t, s1, r, b);
      ExpireHeadSleepers(s, a, b);
      ExpireLoopSleepers(s1, woke || Outranks(s1, t), r, a, b);
      KeepsSleepersTrans(s, s1, r, a, b);
    }
  }

  lemma SleepsThrough(s: State, t: TaskId, s1: State, r: State, a: TaskId)
    requires Expired(s, t, s1) && Elapse(s1, r) && SleepsOn(s, r, a)
    ensures t != a && SleepsOn(s1, r, a)
  {
  }

  lemma TickSleepers(s: State, r: State, a: TaskId, b: TaskId)
    requires Inv(s) && r == TimeTick(s) && SleepsOn(s, r, a) && SleepsOn(s, r, b)
    ensures KeepsSleepers(s, r, a, b)
  {
    AdvanceKeeps(s);
    var s0 := AdvanceClock(s);
    ExpireLoopKeeps(s0, false);
    var (s1, woke) := ExpireLoop(s0, false);
    NoneLeftBehind(s1);
    EndTickQuiet(s1, woke);
    assert SameJob(s1.tasks[a], r.tasks[a]) && SameJob(s1.tasks[b], r.tasks[b]);
    ExpireLoopSleepers(s0, false, s1, a, b);
  }

  // ----- Any step, any run

  lemma NotServed(s: State, op: Op, r: State, l: WaitId, t: TaskId)
    requires Inv(s) && Effect(s, op, r) && SleepsOn(s, r, t) && Serves(s, op, l)
    ensures WaitPop(s, l).1 != Some(t)
  {
    if WaitPop(s, l).1 == Some(t) {
      FrontWaits(s, l);
      assert ServedBy(s, op, t);
    }
  }

  lemma CallerIsAwake(s: State, t: TaskId)
    requires Inv(s) && s.tasks[t].delayList.Some?
    ensures s.current != Some(t)
  {
    assert Coherent(s.tasks[t]);
  }

  /** Neither a nor b is at the front of any list that the step serves. */
  ghost predicate ServesOthers(s: State, op: Op, a: TaskId, b: TaskId) {
    forall l: WaitId :: Serves(s, op, l) ==> FrontIsOther(s, l, a, b)
  }

  lemma SleepersNotServed(s: State, op: Op, r: State, a: TaskId, b: TaskId)
    requires Inv(s) && Effect(s, op, r) && SleepsOn(s, r, a) && SleepsOn(s, r, b)
    ensures ServesOthers(s, op, a, b)
  {
    forall l: WaitId | Serves(s, op, l) ensures FrontIsOther(s, l, a, b) {
      NotServed(s, op, r, l, a);
      NotServed(s, op, r, l, b);
    }
  }

  lemma ServingSleepers(s: State, op: Op, a: TaskId, b: TaskId)
    requires ServesOthers(s, op, a, b) && s.current != Some(a) && s.current != Some(b)
    requires op.Give? || op.GiveIsr? || op.Send? || op.Receive? || op.Unlock?
    ensures KeepsSleepers(s, Next(s, op), a, b)
  {
    match op
    case Give(i) => GiveSleepers(s, i, a, b);
    case GiveIsr(i) => GiveIsrSleepers(s, i, a, b);
    case Send(i, item, timeout) => SendAnySleepers(s, i, item, timeout, a, b);
    case Receive(i, out, timeout) => ReceiveAnySleepers(s, i, out, timeout, a, b);
    case Unlock(m) => UnlockSleepers(s, m, a, b);
  }

  lemma SendAnySleepers(s: State, i: Option<QueueId>, item: Option<Message>, timeout: Tick, a: TaskId, b: TaskId)
    requires CurrentRuns(s) && QueueIsValid(s, i) && item.Some? ==> FrontIsOther(s, ReceiveList(i.value), a, b)
    requires s.current != Some(a) && s.current != Some(b)
    ensures KeepsSleepers(s, SendCurrent(s, i, item, timeout), a, b)
  {
    if CurrentRuns(s) && QueueIsValid(s, i) && item.Some? { SendSleepers(s, i.value, item.value, timeout, a, b); }
  }

  lemma ReceiveAnySleepers(s: State, i: Option<QueueId>, out: bool, timeout: Tick, a: TaskId, b: TaskId)
    requires ReceiveWorks(s, i, out) ==> FrontIsOther(s, SendList(i.value), a, b)
    requires s.current != Some(a) && s.current != Some(b)
    ensures KeepsSleepers(s, ReceiveCurrent(s, i, out, timeout), a, b)
  {
    if ReceiveWorks(s, i, out) {
      ReceiveSleepers(s, i.value, timeout, a, b);
    } else if CurrentRuns(s) && QueueIsValid(s, i) {
      BlockSleepers(s, ReceiveList(i.value), s.tasks[s.current.value].cell, timeout, a, b);
    }
  }

  lemma StartDelays(s: State)
    ensures SchedStart(s).delayed == s.delayed
  {
  }

  /** The calls that serve nobody and end nobody. */
  lemma PlainSleepers(s: State, op: Op, a: TaskId, b: TaskId)
    requires s.current != Some(a) && s.current != Some(b)
    requires !op.Give? && !op.GiveIsr? && !op.Send? && !op.Receive? && !op.Unlock? && !op.Exit? && !op.Tick?
    ensures KeepsSleepers(s, Next(s, op), a, b)
  {
    match op
    case Yield => if CurrentRuns(s) { PickDelays(Requeue(s, s.current.value)); }
    case Delay(n) => DelaySleepers(s, n, a, b);
    case Take(i, timeout) => TakeSleepers(s, i, timeout, a, b);
    case Lock(m, timeout) => LockSleepers(s, m, timeout, a, b);
    case Leave => LeaveDelays(s);
    case Start => StartDelays(s);
    case _ =>
  }

  /** One step: two sleepers that sleep on keep their order. */
  lemma DelayOrderKept(s: State, op: Op, r: State, a: TaskId, b: TaskId)
    requires Inv(s) && Allowed(s, op) && r == Next(s, op) && SleepsOn(s, r, a) && SleepsOn(s, r, b)
    ensures KeepsSleepers(s, r, a, b)
  {
    CallerIsAwake(s, a);
    CallerIsAwake(s, b);
    if op.Exit? {
      if CurrentRuns(s) { ExitSleepers(s, s.current.value, r, a, b); }
    } else if op.Tick? {
      TickSleepers(s, r, a, b);
    } else if op.Give? || op.GiveIsr? || op.Send? || op.Receive? || op.Unlock? {
      StepServesOthers(s, op, r, a, b);
      ServingSleepers(s, op, a, b);
    } else {
      PlainSleepers(s, op, a, b);
    }
  }

  lemma StepServesOthers(s: State, op: Op, r: State, a: TaskId, b: TaskId)
    requires Inv(s) && Allowed(s, op) && !op.Tick? && r == Next(s, op) && SleepsOn(s, r, a) && SleepsOn(s, r, b)
    ensures ServesOthers(s, op, a, b)
  {
    StepEffect(s, op);
    SleepersNotServed(s, op, r, a, b);
  }

  /** t sleeps on in every step of the run. */
  ghost predicate SleepsAll(s: State, ops: seq<Op>, t: TaskId)
    decreases |ops|
  {
    ops == [] || (SleepsOn(s, Next(s, ops[0]), t) && SleepsAll(Next(s, ops[0]), ops[1..], t))
  }

  /** Over any run: whoever sleeps ahead of another task stays ahead of it. */
  lemma {:induction false} SleepOrderKept(s: State, ops: seq<Op>, a: TaskId, b: TaskId)
    requires Inv(s) && AllowedRun(s, ops) && SleepsAll(s, ops, a) && SleepsAll(s, ops, b)
    ensures KeepsSleepers(s, Run(s, ops), a, b)
    decreases |ops|
  {
    if ops != [] {
      var s1 := Next(s, ops[0]);
      DelayOrderKept(s, ops[0], s1, a, b);
      NextKeeps(s, ops[0]);
      SleepOrderKept(s1, ops[1..], a, b);
      KeepsSleepersTrans(s, s1, Run(s1, ops[1..]), a, b);
    }
  }
}
