/** Arrival order in waiting lists: two tasks that keep waiting at the same object with
    unchanged priorities keep their relative order, whatever else happens. */
module WaitOrder {
  import opened Wrappers
  import opened ReadyBitmap
  import opened KernelState
  import opened TaskLists
  import opened Sched
  import opened KernelObjects
  import opened Time
  import opened Inheritance
  import opened DelayLists
  import opened Invariants
  import opened SchedProofs
  import opened StepProofs
  import opened ObjectProofs
  import opened MutexProofs
  import opened TickProofs
  import opened Setup
  import opened Machine
  import opened Effects
  import opened RoundRobin

  /** a stands somewhere before b. */
  ghost predicate Before(q: seq<TaskId>, a: TaskId, b: TaskId) {
    exists i, j :: 0 <= i < j < |q| && q[i] == a && q[j] == b
  }

  /** Wherever a waits before b, it still does. */
  ghost predicate KeepsOrder(s: State, r: State, a: TaskId, b: TaskId) {
    forall l: WaitId :: Before(At(s.lists, WaitList(l)), a, b) ==> Before(At(r.lists, WaitList(l)), a, b)
  }

  lemma KeepsOrderTrans(s: State, m: State, r: State, a: TaskId, b: TaskId)
    requires KeepsOrder(s, m, a, b) && KeepsOrder(m, r, a, b)
    ensures KeepsOrder(s, r, a, b)
  {
  }

  /** No waiting list changes. */
  ghost predicate SameWaitLists(s: State, r: State) {
    forall l: WaitId :: At(r.lists, WaitList(l)) == At(s.lists, WaitList(l))
  }

  // ----- Sequences

  lemma BeforeInsert(q: seq<TaskId>, k: nat, t: TaskId, a: TaskId, b: TaskId)
    requires k <= |q| && Before(q, a, b)
    ensures Before(InsertAt(q, k, t), a, b)
  {
    var i, j :| 0 <= i < j < |q| && q[i] == a && q[j] == b;
    var r := InsertAt(q, k, t);
    var i', j' := if i < k then i else i + 1, if j < k then j else j + 1;
    assert r[i'] == a && r[j'] == b;
  }

  lemma BeforeWithout(q: seq<TaskId>, t: TaskId, a: TaskId, b: TaskId)
    requires t in q && t != a && t != b && Before(q, a, b)
    ensures Before(Without(q, t), a, b)
  {
    var i, j :| 0 <= i < j < |q| && q[i] == a && q[j] == b;
    var k, r := IndexOf(q, t), Without(q, t);
    var i', j' := if i < k then i else i - 1, if j < k then j else j - 1;
    assert r[i'] == a && r[j'] == b;
  }

  lemma BeforePop(q: seq<TaskId>, a: TaskId, b: TaskId)
    requires q != [] && q[0] != a && Before(q, a, b)
    ensures Before(q[1..], a, b)
  {
    var i, j :| 0 <= i < j < |q| && q[i] == a && q[j] == b;
    assert q[1..][i - 1] == a && q[1..][j - 1] == b;
  }

  // ----- Operations of the scheduler and the wait engine

  lemma ScheduleOrder(s: State, rotate: bool)
    ensures SameWaitLists(s, Schedule(s, rotate))
  {
    if s.started && CurrentRuns(s) { SwitchOrder(s, s.current.value); }
    if s.started { PickOrder(s); }
  }

  lemma PickOrder(s: State)
    ensures SameWaitLists(s, PickNext(s))
  {
  }

  lemma SwitchOrder(s: State, c: TaskId)
    ensures SameWaitLists(s, PickNext(Requeue(s, c)))
  {
    PickOrder(Requeue(s, c));
  }

  lemma WaitInsertOrder(s: State, l: WaitId, t: TaskId, a: TaskId, b: TaskId)
    ensures KeepsOrder(s, WaitInsert(s, l, t), a, b)
  {
    var q := At(s.lists, WaitList(l));
    if Before(q, a, b) { BeforeInsert(q, PriorityPos(s.tasks, q, s.tasks[t].eff), t, a, b); }
  }

  lemma WaitPopOrder(s: State, l: WaitId, a: TaskId, b: TaskId)
    requires WaitPop(s, l).1 != Some(a)
    ensures KeepsOrder(s, WaitPop(s, l).0, a, b)
  {
    var q := At(s.lists, WaitList(l));
    if q != [] && Before(q, a, b) { BeforePop(q, a, b); }
  }

  lemma LeaveOrder(s: State, l: WaitId, t: TaskId, a: TaskId, b: TaskId)
    requires t in At(s.lists, WaitList(l)) && t != a && t != b
    ensures KeepsOrder(s, s.(lists := SetAt(s.lists, WaitList(l), Without(At(s.lists, WaitList(l)), t))), a, b)
  {
    var q := At(s.lists, WaitList(l));
    if Before(q, a, b) { BeforeWithout(q, t, a, b); }
  }

  lemma MoveWaitingOrder(s: State, t: TaskId, p: Priority, l: WaitId, a: TaskId, b: TaskId)
    requires t in At(s.lists, WaitList(l)) && t != a && t != b
    ensures KeepsOrder(s, MoveWaiting(s, t, p, l), a, b)
  {
    LeaveOrder(s, l, t, a, b);
    var s1 := s.(lists := SetAt(s.lists, WaitList(l), Without(At(s.lists, WaitList(l)), t)));
    var s2 := SetTask(s1, t, s.tasks[t].(eff := p));
    WaitInsertOrder(s2, l, t, a, b);
    KeepsOrderTrans(s, s2, MoveWaiting(s, t, p, l), a, b);
  }

  /** Only a task whose priority really changes is moved. */
  lemma SetEffectivePriorityOrder(s: State, t: TaskId, p: nat, a: TaskId, b: TaskId)
    requires t == a || t == b ==> p == s.tasks[t].eff
    ensures KeepsOrder(s, SetEffectivePriority(s, t, p), a, b)
  {
    var task := s.tasks[t];
    if 0 < p < PRIORITY_COUNT && task.eff != p && task.state == BlockedObject && task.wait.Some?
      && t in At(s.lists, WaitList(task.wait.value)) {
      MoveWaitingOrder(s, t, p, task.wait.value, a, b);
    } else {
      assert SameWaitLists(s, SetEffectivePriority(s, t, p));
    }
  }

  lemma {:induction false} ApplyFromOrder(s: State, want: seq<nat>, k: nat, a: TaskId, b: TaskId)
    requires |want| == MAX_TASKS && want[a] == s.tasks[a].eff && want[b] == s.tasks[b].eff
    ensures KeepsOrder(s, ApplyFrom(s, want, k), a, b)
    decreases MAX_TASKS - k
  {
    if k < MAX_TASKS {
      var s1 := SetEffectivePriority(s, k, want[k]);
      SetEffectivePriorityOrder(s, k, want[k], a, b);
      assert s1.tasks[a].eff == s.tasks[a].eff && s1.tasks[b].eff == s.tasks[b].eff;
      ApplyFromOrder(s1, want, k + 1, a, b);
      KeepsOrderTrans(s, s1, ApplyFrom(s1, want, k + 1), a, b);
    }
  }

  lemma ParkOrder(s: State, c: TaskId, l: WaitId, cell: Message, n: Tick, a: TaskId, b: TaskId)
    ensures KeepsOrder(s, Park(s, c, l, cell, n), a, b)
  {
    var s1 := SetTask(s, c,
      s.tasks[c].(wait := Some(l), cell := cell, deadline := Deadline(s, n), result := BadState,
      state := BlockedObject));
    WaitInsertOrder(s1, l, c, a, b);
    assert SameWaitLists(WaitInsert(s1, l, c), Park(s, c, l, cell, n));
  }

  lemma WaitBlockOrder(s: State, l: WaitId, cell: Message, timeout: Tick, a: TaskId, b: TaskId)
    ensures KeepsOrder(s, WaitBlock(s, l, cell, timeout), a, b)
  {
    if CurrentRuns(s) {
      var s1 := Park(s, s.current.value, l, cell, ClampTimeout(timeout));
      ParkOrder(s, s.current.value, l, cell, ClampTimeout(timeout), a, b);
      PickOrder(s1);
    }
  }

  lemma MakeReadyOrder(s: State, t: TaskId, result: Status)
    ensures SameWaitLists(s, MakeReady(s, t, result))
  {
  }

  lemma PreemptOrder(s: State, w: TaskId)
    ensures SameWaitLists(s, MaybePreempt(s, w))
  {
    ScheduleOrder(s, false);
  }

  lemma LeaveCriticalOrder(s: State)
    ensures SameWaitLists(s, ExitCritical(s))
  {
    CriticalUnfolds(s);
    ScheduleOrder(s.(nesting := 0, pending := false), false);
  }

  // ----- Kernel calls

  /** t waits for the same object before and after, with the same priority. */
  ghost predicate Stays(s: State, r: State, t: TaskId) {
    s.tasks[t].state == BlockedObject && r.tasks[t].state == BlockedObject && r.tasks[t].wait == s.tasks[t].wait
      && r.tasks[t].eff == s.tasks[t].eff
  }

  /** A task that keeps waiting was not at the front of a list that the step served. */
  lemma NotPopped(s: State, op: Op, r: State, l: WaitId, t: TaskId)
    requires Inv(s) && Effect(s, op, r) && Stays(s, r, t) && Serves(s, op, l)
    ensures WaitPop(s, l).1 != Some(t)
  {
    if WaitPop(s, l).1 == Some(t) {
      FrontWaits(s, l);
      assert ServedBy(s, op, t);
    }
  }

  lemma GiveAnyOrder(s: State, i: Option<SemId>, a: TaskId, b: TaskId)
    requires SemIsValid(s, i) ==> WaitPop(s, SemList(i.value)).1 != Some(a)
    ensures KeepsOrder(s, GiveAny(s, i).0, a, b)
  {
    if SemIsValid(s, i) {
      var (s1, w) := WaitPop(s, SemList(i.value));
      WaitPopOrder(s, SemList(i.value), a, b);
      if w.Some? { MakeReadyOrder(s1, w.value, Status.Ok); }
    }
  }

  lemma GiveOrder(s: State, i: Option<SemId>, a: TaskId, b: TaskId)
    requires CurrentRuns(s) && SemIsValid(s, i) ==> WaitPop(s, SemList(i.value)).1 != Some(a)
    ensures KeepsOrder(s, GiveCurrent(s, i), a, b)
  {
    if CurrentRuns(s) {
      GiveAnyOrder(s, i, a, b);
      var (s1, status, w) := GiveAny(s, i);
      if w.Some? { PreemptOrder(SetResult(s1, s.current.value, status), w.value); }
    }
  }

  lemma GiveIsrOrder(s: State, i: Option<SemId>, a: TaskId, b: TaskId)
    requires SemIsValid(s, i) ==> WaitPop(s, SemList(i.value)).1 != Some(a)
    ensures KeepsOrder(s, GiveFromIsr(s, i), a, b)
  {
    var s0 := EnterCritical(s);
    GiveAnyOrder(s0, i, a, b);
    var (s1, _, w) := GiveAny(s0, i);
    if w.Some? { PreemptOrder(s1, w.value); }
    LeaveCriticalOrder(if w.Some? then MaybePreempt(s1, w.value) else s1);
  }

  lemma ServeOrder(s: State, w: TaskId)
    ensures SameWaitLists(s, Serve(s, w))
  {
    MakeReadyOrder(s, w, Status.Ok);
    PreemptOrder(MakeReady(s, w, Status.Ok), w);
  }

  lemma SendOrder(s: State, i: QueueId, item: Message, timeout: Tick, a: TaskId, b: TaskId)
    requires CurrentRuns(s) && QueueIsValid(s, Some(i)) && WaitPop(s, ReceiveList(i)).1 != Some(a)
    ensures KeepsOrder(s, SendCurrent(s, Some(i), Some(item), timeout), a, b)
  {
    SendUnfolds(s, i, item, timeout);
    WaitPopOrder(s, ReceiveList(i), a, b);
    WaitBlockOrder(s, SendList(i), item, timeout, a, b);
    var w := WaitPop(s, ReceiveList(i)).1;
    if w.Some? { ServeOrder(Delivery(s, i, item), w.value); }
  }

  lemma ReceiveOrder(s: State, i: QueueId, timeout: Tick, a: TaskId, b: TaskId)
    requires CurrentRuns(s) && QueueIsValid(s, Some(i)) && s.queues[i].count > 0 && WaitPop(s, SendList(i)).1 != Some(a)
    ensures KeepsOrder(s, ReceiveCurrent(s, Some(i), true, timeout), a, b)
  {
    ReceiveUnfolds(s, i, timeout);
    WaitPopOrder(s, SendList(i), a, b);
    var w := WaitPop(s, SendList(i)).1;
    if w.Some? {
      ServeOrder(Refill(s, i, w.value), w.value);
      assert forall l: WaitId ::
               At(Refill(s, i, w.value).lists, WaitList(l)) == At(WaitPop(s, SendList(i)).0.lists, WaitList(l));
    }
  }

  // ----- Mutexes

  lemma RecomputeOrder(s: State, r: State, a: TaskId, b: TaskId)
    requires r == WaitersChanged(s) && Inherited(GraphOf(s))[a] == s.tasks[a].eff
             && Inherited(GraphOf(s))[b] == s.tasks[b].eff
    ensures KeepsOrder(s, r, a, b)
  {
    ApplyFromOrder(s, Inherited(GraphOf(s)), 0, a, b);
  }

  lemma BoostOrder(s: State, o: TaskId, r: State, a: TaskId, b: TaskId)
    requires Structure(s, {}) && Objects(s) && PoolFits(s) && OneRuns(s.tasks, s.current)
    requires r == BoostOwner(s, o) && r.tasks[a].eff == s.tasks[a].eff && r.tasks[b].eff == s.tasks[b].eff
    ensures KeepsOrder(s, r, a, b)
  {
    RecomputeKeeps(s, false);
    var s3 := WaitersChanged(s);
    ScheduleKeeps(s3, false);
    ScheduleOrder(s3, false);
    assert forall t: TaskId :: Schedule(s3, false).tasks[t].eff == s3.tasks[t].eff;
    RecomputeOrder(s, s3, a, b);
  }

  lemma LockOrder(s: State, m: MutexId, timeout: Tick, r: State, a: TaskId, b: TaskId)
    requires Inv(s) && CurrentRuns(s) && !IsIdle(s.tasks[s.current.value]) && timeout != 0
    requires s.mutexes[m].used && s.mutexes[m].owner.Some? && s.mutexes[m].owner != s.current
    requires r == LockCurrent(s, Some(m), timeout) && Stays(s, r, a) && Stays(s, r, b)
    ensures KeepsOrder(s, r, a, b)
  {
    var cell, o := s.tasks[s.current.value].cell, s.mutexes[m].owner.value;
    var s2 := WaitBlock(s, MutexList(m), cell, timeout);
    WaitBlockOrder(s, MutexList(m), cell, timeout, a, b);
    BlockedOnMutex(s, m, timeout);
    assert r == BoostOwner(s2, o);
    BoostOrder(s2, o, r, a, b);
    KeepsOrderTrans(s, s2, r, a, b);
  }

  /** Priorities after the hand-off are the inherited ones, before and after w is woken. */
  lemma UnlockEffs(s: State, m: MutexId, w: TaskId, s1: State, d: State, r: State)
    requires Inv(s) && CurrentRuns(s) && s.mutexes[m].used && s.mutexes[m].owner == s.current
             && PassOn(s, m).1 == Some(w)
    requires s1 == SetResult(PassOn(s, m).0, s.current.value, Status.Ok)
             && d == MakeReady(WaitersChanged(s1), w, Status.Ok)
    requires r == MaybePreempt(d, w)
    ensures SameEff(s, s1) && (forall t: TaskId :: Inherited(GraphOf(s1))[t] == d.tasks[t].eff) && SameEff(d, r)
  {
    assert SameEff(s, s1) by { PassedFrame(s, m, w, s1); }
    assert forall t: TaskId :: Inherited(GraphOf(s1))[t] == d.tasks[t].eff by {
      PassedOn(s, m, w);
      Deliver(s1, w);
    }
    assert SameEff(d, r) by {
      HandOff(s, m, w, s1, d);
      PreemptSameEff(d, w);
    }
  }

  lemma PreemptSameEff(s: State, w: TaskId)
    requires Settled(s) && OneRuns(s.tasks, s.current)
    ensures SameEff(s, MaybePreempt(s, w))
  {
    ScheduleKeeps(s, false);
  }

  lemma UnlockOrder(s: State, m: MutexId, w: TaskId, r: State, a: TaskId, b: TaskId)
    requires Inv(s) && CurrentRuns(s) && s.mutexes[m].used && s.mutexes[m].owner == s.current
             && PassOn(s, m).1 == Some(w)
    requires r == UnlockCurrent(s, Some(m)) && Stays(s, r, a) && Stays(s, r, b) && w != a
    ensures KeepsOrder(s, r, a, b)
  {
    var s1 := SetResult(PassOn(s, m).0, s.current.value, Status.Ok);
    var s2 := WaitersChanged(s1);
    var d := MakeReady(s2, w, Status.Ok);
    UnlockIs(s, m, w);
    UnlockEffs(s, m, w, s1, d, r);
    WaitPopOrder(s, MutexList(m), a, b);
    assert KeepsOrder(s, s1, a, b);
    RecomputeOrder(s1, s2, a, b);
    MakeReadyOrder(s2, w, Status.Ok);
    PreemptOrder(d, w);
    KeepsOrderTrans(s, s1, s2, a, b);
  }

  lemma UnlockFreeOrder(s: State, m: MutexId, r: State, a: TaskId, b: TaskId)
    requires Inv(s) && CurrentRuns(s) && s.mutexes[m].used && s.mutexes[m].owner == s.current && PassOn(s, m).1 == None
    requires r == UnlockCurrent(s, Some(m))
    ensures KeepsOrder(s, r, a, b)
  {
    var s1 := SetResult(PassOn(s, m).0, s.current.value, Status.Ok);
    assert r == WaitersChanged(s1) && PrioritiesInherited(s1) by { UnlockFreeQuiet(s, m); }
    EffIsInherited(s1, a);
    EffIsInherited(s1, b);
    RecomputeOrder(s1, r, a, b);
  }

  lemma EffIsInherited(s: State, t: TaskId)
    requires PrioritiesInherited(s)
    ensures Inherited(GraphOf(s))[t] == s.tasks[t].eff
  {
    assert Priorities(s)[t] == s.tasks[t].eff;
  }

  lemma {:induction false} ReleaseFromOrder(s: State, c: TaskId, k: nat, a: TaskId, b: TaskId)
    requires Orderly(s, c) && s.tasks[a].state == BlockedObject && ReleaseFrom(s, c, k).tasks[a].state == BlockedObject
    ensures KeepsOrder(s, ReleaseFrom(s, c, k), a, b)
    decreases MAX_MUTEXES - k
  {
    if k < MAX_MUTEXES {
      var s1 := ReleaseOne(s, c, k);
      ReleaseOneKeeps(s, c, k);
      ReleaseFromEffect(s1, c, k + 1);
      ReleaseOneOrder(s, c, k, a, b);
      ReleaseFromOrder(s1, c, k + 1, a, b);
      KeepsOrderTrans(s, s1, ReleaseFrom(s1, c, k + 1), a, b);
    }
  }

  lemma ReleaseOneOrder(s: State, c: TaskId, k: MutexId, a: TaskId, b: TaskId)
    requires Orderly(s, c) && ReleaseEffect(ReleaseOne(s, c, k), c, k + 1, ReleaseFrom(s, c, k))
    requires ReleaseFrom(s, c, k).tasks[a].state == BlockedObject
    ensures KeepsOrder(s, ReleaseOne(s, c, k), a, b) && ReleaseOne(s, c, k).tasks[a].state == BlockedObject
  {
    var s1 := ReleaseOne(s, c, k);
    if Owns(s, c, k) && PassOn(s, k).1.Some? {
      var w := PassOn(s, k).1.value;
      PassOnServes(s, c, k, w);
      MakeReadyOrder(PassOn(s, k).0, w, Status.Ok);
      assert s1.tasks[a].state == BlockedObject;
      WaitPopOrder(s, MutexList(k), a, b);
    }
  }

  lemma ExitOrder(s: State, c: TaskId, r: State, a: TaskId, b: TaskId)
    requires Inv(s) && s.current == Some(c) && r == TerminateCurrent(s) && Stays(s, r, a) && Stays(s, r, b)
    ensures KeepsOrder(s, r, a, b)
  {
    var s1, s2 := ReleaseFrom(s, c, 0), ReleaseTask(s, c);
    var s3 := SetTask(s2, c, s2.tasks[c].(state := Terminated));
    ExitFrame(s, c, s1, s2, s3, r);
    ReleaseFromOrder(s, c, 0, a, b);
    if exists m: MutexId :: Owns(s, c, m) {
      RecomputeKeeps(s1, false);
      RecomputeOrder(s1, s2, a, b);
    }
    PickOrder(s3);
    KeepsOrderTrans(s, s1, s2, a, b);
  }

  lemma ExitFrame(s: State, c: TaskId, s1: State, s2: State, s3: State, r: State)
    requires Inv(s) && s.current == Some(c) && s1 == ReleaseFrom(s, c, 0) && s2 == ReleaseTask(s, c)
    requires s3 == SetTask(s2, c, s2.tasks[c].(state := Terminated)) && r == TerminateCurrent(s)
    ensures r == PickNext(s3) && Orderly(s1, c) && SameEff(s2, r) && SameEff(s, s1)
    ensures forall t: TaskId :: t != c ==> (r.tasks[t].state == BlockedObject <==> s1.tasks[t].state == BlockedObject)
  {
    assert r == PickNext(s3) by { ExitIs(s, c); }
    ReleasedFrame(s, c, s1);
    MaybeRecomputed(s, c, s1, s2);
    RetiredSwitch(s, c, s2, s3);
    ExitStates(c, s1, s2, s3, r);
  }

  lemma ReleasedFrame(s: State, c: TaskId, s1: State)
    requires Inv(s) && s.current == Some(c) && s1 == ReleaseFrom(s, c, 0)
    ensures Orderly(s1, c) && SameEff(s, s1)
  {
    ReleaseFromKeeps(s, c, 0);
    ReleaseFromEffect(s, c, 0);
  }

  lemma ExitIs(s: State, c: TaskId)
    requires CurrentRuns(s) && s.current == Some(c)
    ensures var s2 := ReleaseTask(s, c);
              TerminateCurrent(s) == PickNext(SetTask(s2, c, s2.tasks[c].(state := Terminated)))
  {
  }

  lemma RetiredSwitch(s: State, c: TaskId, s2: State, s3: State)
    requires Inv(s) && s.current == Some(c) && s2 == ReleaseTask(s, c)
             && s3 == SetTask(s2, c, s2.tasks[c].(state := Terminated))
    ensures Quiet(s3, PickNext(s3)) && SameEff(s3, PickNext(s3))
  {
    ReleaseTaskKeeps(s, c);
    RetireSettled(s2, c);
    PickNextKeeps(s3);
  }

  lemma ExitStates(c: TaskId, s1: State, s2: State, s3: State, r: State)
    requires Quiet(s1, s2) && s3 == SetTask(s2, c, s2.tasks[c].(state := Terminated)) && Quiet(s3, r) && SameEff(s3, r)
    ensures SameEff(s2, r)
    ensures forall t: TaskId :: t != c ==> (r.tasks[t].state == BlockedObject <==> s1.tasks[t].state == BlockedObject)
  {
    forall t: TaskId | t != c ensures r.tasks[t].state == BlockedObject <==> s1.tasks[t].state == BlockedObject {
      assert SameJob(s1.tasks[t], s2.tasks[t]) && SameJob(s3.tasks[t], r.tasks[t]);
    }
  }

  // ----- Ticks

  lemma ExpireHeadOrder(s: State, s1: State, a: TaskId, b: TaskId)
    requires Ticking(s) && HeadIsDue(s) && s1 == ExpireHead(s)
    requires s.delayed[s.px][0] != a && s.delayed[s.px][0] != b
    requires s1.tasks[a].eff == s.tasks[a].eff && s1.tasks[b].eff == s.tasks[b].eff
    ensures KeepsOrder(s, s1, a, b)
  {
    var t := s.delayed[s.px][0];
    HeadIsDueExactly(s);
    assert Coherent(s.tasks[t]);
    if s.tasks[t].state == BlockedObject {
      TimedOutOrder(s, t, a, b);
      if s.tasks[t].wait.value.MutexList? { TimeoutRecomputeOrder(s, t, TimedOut(s, t), s1, a, b); }
    } else {
      assert SameWaitLists(s, s1);
    }
  }

  lemma TimedOutOrder(s: State, t: TaskId, a: TaskId, b: TaskId)
    requires s.delayed[s.px] != [] && t != a && t != b
    ensures KeepsOrder(s, TimedOut(s, t), a, b)
  {
    var s1 := PopDelayed(s);
    var w := s1.tasks[t].wait;
    if w.Some? && t in At(s1.lists, WaitList(w.value)) { LeaveOrder(s1, w.value, t, a, b); }
    MakeReadyOrder(LeaveWaitList(s1, t), t, Timeout);
  }

  lemma TimeoutRecomputeOrder(s: State, t: TaskId, s2: State, s1: State, a: TaskId, b: TaskId)
    requires Ticking(s) && s.delayed[s.px] != [] && t == s.delayed[s.px][0] && s.tasks[t].state == BlockedObject
    requires s2 == TimedOut(s, t) && s1 == WaitersChanged(s2) && t != a && t != b
    requires s1.tasks[a].eff == s.tasks[a].eff && s1.tasks[b].eff == s.tasks[b].eff && KeepsOrder(s, s2, a, b)
    ensures KeepsOrder(s, s1, a, b)
  {
    TimedOutKeeps(s, t);
    TimedOutObjects(s, t, s2);
    RecomputeKeeps(s2, true);
    RecomputeOrder(s2, s1, a, b);
    KeepsOrderTrans(s, s2, s1, a, b);
  }

  lemma {:induction false} ExpireLoopOrder(s: State, woke: bool, r: State, a: TaskId, b: TaskId)
    requires Ticking(s) && (woke ==> Beaten(s)) && r == ExpireLoop(s, woke).0 && Stays(s, r, a) && Stays(s, r, b)
    ensures KeepsOrder(s, r, a, b)
    decreases |s.delayed[s.px]|
  {
    if HeadIsDue(s) {
      var t, s1 := s.delayed[s.px][0], ExpireHead(s);
      ExpireHeadKeeps(s);
      ExpiredKeepsVerdict(s, t, s1);
      ExpireLoopKeeps(s1, woke || Outranks(s1, t));
      StaysThrough(s, t, s1, r, a);
      StaysThrough(s, t, s1, r, b);
      ExpireHeadOrder(s, s1, a, b);
      ExpireLoopOrder(s1, woke || Outranks(s1, t), r, a, b);
      KeepsOrderTrans(s, s1, r, a, b);
    }
  }

  lemma StaysThrough(s: State, t: TaskId, s1: State, r: State, a: TaskId)
    requires Expired(s, t, s1) && Elapsed(s1, r) && Stays(s, r, a)
    ensures t != a && Stays(s, s1, a) && Stays(s1, r, a)
  {
  }

  lemma EndTickOrder(s: State, woke: bool)
    ensures SameWaitLists(s, EndTick(SpendSlice(s), woke))
  {
    ScheduleOrder(SpendSlice(s), false);
    ScheduleOrder(SpendSlice(s), true);
  }

  lemma TickOrder(s: State, r: State, a: TaskId, b: TaskId)
    requires Inv(s) && r == TimeTick(s) && Stays(s, r, a) && Stays(s, r, b)
    ensures KeepsOrder(s, r, a, b)
  {
    AdvanceKeeps(s);
    var s0 := AdvanceClock(s);
    ExpireLoopKeeps(s0, false);
    var (s1, woke) := ExpireLoop(s0, false);
    NoneLeftBehind(s1);
    EndTickQuiet(s1, woke);
    EndTickEff(s1, woke);
    EndTickOrder(s1, woke);
    StaysBefore(s, s0, s1, r, a);
    StaysBefore(s, s0, s1, r, b);
    ExpireLoopOrder(s0, false, s1, a, b);
  }

  lemma EndTickEff(s: State, woke: bool)
    requires Settled(s) && OneRuns(s.tasks, s.current)
    ensures SameEff(s, EndTick(SpendSlice(s), woke))
  {
    SpendKeeps(s, woke);
    EndTickFrame(SpendSlice(s), woke);
  }

  lemma StaysBefore(s: State, s0: State, s1: State, r: State, a: TaskId)
    requires s0 == AdvanceClock(s) && Stays(s, r, a) && Quiet(s1, r) && SameEff(s1, r)
    ensures Stays(s0, s1, a)
  {
    assert SameJob(s1.tasks[a], r.tasks[a]);
  }

  // ----- Any step, any run

  lemma ServingOrder(s: State, op: Op, r: State, a: TaskId, b: TaskId)
    requires Inv(s) && Allowed(s, op) && r == Next(s, op) && Stays(s, r, a) && Stays(s, r, b)
    requires op.Give? || op.GiveIsr? || op.Send? || op.Receive? || op.Unlock?
    ensures KeepsOrder(s, r, a, b)
  {
    StaysUnserved(s, op, r, a);
    if op.Unlock? { UnlockAnyOrder(s, op.lock, r, a, b); } else { ServingCalls(s, op, a, b); }
  }

  lemma StaysUnserved(s: State, op: Op, r: State, a: TaskId)
    requires Inv(s) && Allowed(s, op) && !op.Tick? && r == Next(s, op) && Stays(s, r, a)
    ensures NotServed(s, op, a)
  {
    StepEffect(s, op);
    forall l: WaitId | Serves(s, op, l) ensures WaitPop(s, l).1 != Some(a) { NotPopped(s, op, r, l, a); }
  }

  /** Task a is at the front of no list that the step serves. */
  ghost predicate NotServed(s: State, op: Op, a: TaskId) {
    forall l: WaitId :: Serves(s, op, l) ==> WaitPop(s, l).1 != Some(a)
  }

  lemma ServingCalls(s: State, op: Op, a: TaskId, b: TaskId)
    requires NotServed(s, op, a) && (op.Give? || op.GiveIsr? || op.Send? || op.Receive?)
    ensures KeepsOrder(s, Next(s, op), a, b)
  {
    match op
    case Give(i) => GiveOrder(s, i, a, b);
    case GiveIsr(i) => GiveIsrOrder(s, i, a, b);
    case Send(i, item, timeout) => SendAnyOrder(s, i, item, timeout, a, b);
    case Receive(i, out, timeout) => ReceiveAnyOrder(s, i, out, timeout, a, b);
  }

  lemma SendAnyOrder(s: State, i: Option<QueueId>, item: Option<Message>, timeout: Tick, a: TaskId, b: TaskId)
    requires CurrentRuns(s) && QueueIsValid(s, i) && item.Some? ==> WaitPop(s, ReceiveList(i.value)).1 != Some(a)
    ensures KeepsOrder(s, SendCurrent(s, i, item, timeout), a, b)
  {
    if CurrentRuns(s) && QueueIsValid(s, i) && item.Some? { SendOrder(s, i.value, item.value, timeout, a, b); }
  }

  lemma ReceiveAnyOrder(s: State, i: Option<QueueId>, out: bool, timeout: Tick, a: TaskId, b: TaskId)
    requires ReceiveWorks(s, i, out) ==> WaitPop(s, SendList(i.value)).1 != Some(a)
    ensures KeepsOrder(s, ReceiveCurrent(s, i, out, timeout), a, b)
  {
    if ReceiveWorks(s, i, out) {
      ReceiveOrder(s, i.value, timeout, a, b);
    } else if CurrentRuns(s) && QueueIsValid(s, i) {
      WaitBlockOrder(s, ReceiveList(i.value), s.tasks[s.current.value].cell, timeout, a, b);
    }
  }

  lemma UnlockAnyOrder(s: State, m: Option<MutexId>, r: State, a: TaskId, b: TaskId)
    requires Inv(s) && r == UnlockCurrent(s, m) && Stays(s, r, a) && Stays(s, r, b)
    requires UnlockWorks(s, m) ==> WaitPop(s, MutexList(m.value)).1 != Some(a)
    ensures KeepsOrder(s, r, a, b)
  {
    if UnlockWorks(s, m) {
      var w := PassOn(s, m.value).1;
      if w.Some? { UnlockOrder(s, m.value, w.value, r, a, b); } else { UnlockFreeOrder(s, m.value, r, a, b); }
    }
  }

  lemma TakeOrder(s: State, i: Option<SemId>, timeout: Tick, a: TaskId, b: TaskId)
    ensures KeepsOrder(s, TakeCurrent(s, i, timeout), a, b)
  {
    if CurrentRuns(s) && SemIsValid(s, i) {
      WaitBlockOrder(s, SemList(i.value), s.tasks[s.current.value].cell, timeout, a, b);
    }
  }

  lemma LockAnyOrder(s: State, m: Option<MutexId>, timeout: Tick, r: State, a: TaskId, b: TaskId)
    requires Inv(s) && Allowed(s, Op.Lock(m, timeout)) && r == LockCurrent(s, m, timeout) && Stays(s, r, a)
             && Stays(s, r, b)
    ensures KeepsOrder(s, r, a, b)
  {
    if CurrentRuns(s) && MutexIsValid(s, m) && s.mutexes[m.value].owner.Some? && s.mutexes[m.value].owner != s.current
      && timeout != 0 {
      LockOrder(s, m.value, timeout, r, a, b);
    }
  }

  lemma DelayOrder(s: State, n: Tick)
    ensures SameWaitLists(s, DelayCurrent(s, n))
  {
    if CurrentRuns(s) {
      SwitchOrder(s, s.current.value);
      PickOrder(Sleep(s, s.current.value, ClampDelay(n)));
    }
  }

  lemma StartOrder(s: State)
    ensures SameWaitLists(s, SchedStart(s))
  {
  }

  lemma CreateOrder(s: State, priority: nat)
    ensures SameWaitLists(s, TaskCreate(s, priority, false))
  {
  }

  lemma IdleOrder(s: State)
    ensures SameWaitLists(s, EnsureIdleTask(s))
  {
  }

  /** The calls that neither serve a list nor end or boost anybody. */
  lemma PlainOrder(s: State, op: Op, a: TaskId, b: TaskId)
    requires !op.Give? && !op.GiveIsr? && !op.Send? && !op.Receive? && !op.Unlock? && !op.Lock? && !op.Exit?
             && !op.Tick?
    ensures KeepsOrder(s, Next(s, op), a, b)
  {
    match op
    case Yield => if CurrentRuns(s) { SwitchOrder(s, s.current.value); }
    case Delay(n) => DelayOrder(s, n);
    case Take(i, timeout) => TakeOrder(s, i, timeout, a, b);
    case Leave => LeaveCriticalOrder(s);
    case CreateTask(p) => CreateOrder(s, p);
    case EnsureIdle => IdleOrder(s);
    case Start => StartOrder(s);
    case _ =>
  }

  /** One step: two tasks that both keep waiting with unchanged priority keep their order. */
  lemma StepKeepsOrder(s: State, op: Op, r: State, a: TaskId, b: TaskId)
    requires Inv(s) && Allowed(s, op) && r == Next(s, op) && Stays(s, r, a) && Stays(s, r, b)
    ensures KeepsOrder(s, r, a, b)
  {
    match op
    case Lock(m, timeout) => LockAnyOrder(s, m, timeout, r, a, b);
    case Exit => if CurrentRuns(s) { ExitOrder(s, s.current.value, r, a, b); }
    case Tick => TickOrder(s, r, a, b);
    case _ =>
      if op.Give? || op.GiveIsr? || op.Send? || op.Receive? || op.Unlock? {
        ServingOrder(s, op, r, a, b);
      } else {
        PlainOrder(s, op, a, b);
      }
  }

  /** In every step of the run t keeps waiting for the same object with the same priority. */
  ghost predicate StaysAll(s: State, ops: seq<Op>, t: TaskId)
    decreases |ops|
  {
    ops == [] || (Stays(s, Next(s, ops[0]), t) && StaysAll(Next(s, ops[0]), ops[1..], t))
  }

  /** Waiting lists are first come, first served among tasks whose priorities do not change. */
  lemma {:induction false} ArrivalOrderKept(s: State, ops: seq<Op>, a: TaskId, b: TaskId)
    requires Inv(s) && AllowedRun(s, ops) && StaysAll(s, ops, a) && StaysAll(s, ops, b)
    ensures KeepsOrder(s, Run(s, ops), a, b)
    decreases |ops|
  {
    if ops != [] {
      var s1 := Next(s, ops[0]);
      StepKeepsOrder(s, ops[0], s1, a, b);
      NextKeeps(s, ops[0]);
      ArrivalOrderKept(s1, ops[1..], a, b);
      KeepsOrderTrans(s, s1, Run(s1, ops[1..]), a, b);
    }
  }

  /** A task that starts to wait goes behind every waiter of its own priority or higher and
      ahead of all others. */
  lemma ArrivesBehindEquals(s: State, l: WaitId, c: TaskId, t: TaskId)
    requires t in At(s.lists, WaitList(l)) && c !in At(s.lists, WaitList(l))
             && ByPriority(s.tasks, At(s.lists, WaitList(l)))
    ensures var q := At(WaitInsert(s, l, c).lists, WaitList(l));
            if s.tasks[t].eff >= s.tasks[c].eff then Before(q, t, c) else Before(q, c, t)
  {
    var q := At(s.lists, WaitList(l));
    var k := PriorityPos(s.tasks, q, s.tasks[c].eff);
    var r := InsertAt(q, k, c);
    var i :| 0 <= i < |q| && q[i] == t;
    assert r[k] == c;
    if i < k { assert r[i] == t; } else { assert r[i + 1] == t && s.tasks[q[k]].eff >= s.tasks[q[i]].eff; }
  }
}
