/** Sleepers that one tick wakes become ready in the order in which they slept. */
module WakeOrder {
  import opened Wrappers
  import opened ReadyBitmap
  import opened KernelState
  import opened TaskLists
  import opened Sched
  import opened KernelObjects
  import opened Time
  import opened Inheritance
  import opened Placement
  import opened DelayLists
  import opened Invariants
  import opened MutexProofs
  import opened TickProofs
  import opened Machine
  import opened Effects
  import opened WaitOrder
  import opened DelayOrder

  /** a stands before b in the ready list of their common priority. */
  ghost predicate ReadyBefore(s: State, a: TaskId, b: TaskId) {
    s.tasks[a].eff == s.tasks[b].eff && Before(At(s.lists, ReadyList(s.tasks[a].eff)), a, b)
  }

  /** Neither priority changes. */
  ghost predicate SamePair(s: State, r: State, a: TaskId, b: TaskId) {
    r.tasks[a].eff == s.tasks[a].eff && r.tasks[b].eff == s.tasks[b].eff
  }

  // ----- Operations on the ready lists

  lemma BeforePush(q: seq<TaskId>, t: TaskId, a: TaskId, b: TaskId)
    requires Before(q, a, b)
    ensures Before(q + [t], a, b)
  {
    var i, j :| 0 <= i < j < |q| && q[i] == a && q[j] == b;
    assert (q + [t])[i] == a && (q + [t])[j] == b;
  }

  lemma EnqueuePair(s: State, u: TaskId, a: TaskId, b: TaskId)
    requires ReadyBefore(s, a, b)
    ensures ReadyBefore(ReadyEnqueue(s, u), a, b)
  {
    BeforePush(At(s.lists, ReadyList(s.tasks[a].eff)), u, a, b);
  }

  lemma EnqueueBehind(s: State, a: TaskId, b: TaskId)
    requires s.tasks[b].state == Ready && s.tasks[a].eff == s.tasks[b].eff
    requires a in At(s.lists, ReadyList(s.tasks[a].eff)) && b !in At(s.lists, ReadyList(s.tasks[b].eff))
    ensures ReadyBefore(ReadyEnqueue(s, b), a, b)
  {
    var q := At(s.lists, ReadyList(s.tasks[a].eff));
    var i :| 0 <= i < |q| && q[i] == a;
    assert (q + [b])[i] == a && (q + [b])[|q|] == b;
  }

  lemma RemovePair(s: State, u: TaskId, a: TaskId, b: TaskId)
    requires ReadyBefore(s, a, b) && u != a && u != b
    ensures ReadyBefore(ReadyRemove(s, u), a, b)
  {
    var l := ReadyList(s.tasks[u].eff);
    var q := At(s.lists, l);
    if u in q {
      var r := ReadyRemove(s, u);
      assert forall k: ListId :: At(r.lists, k) == if k == l then Without(q, u) else At(s.lists, k);
      if s.tasks[a].eff == s.tasks[u].eff { BeforeWithout(q, u, a, b); }
    }
  }

  lemma MoveReadyPair(s: State, u: TaskId, p: Priority, a: TaskId, b: TaskId)
    requires ReadyBefore(s, a, b) && u != a && u != b
    ensures ReadyBefore(MoveReady(s, u, p), a, b)
  {
    RemovePair(s, u, a, b);
    var s1 := SetTask(ReadyRemove(s, u), u, s.tasks[u].(eff := p));
    assert ReadyBefore(s1, a, b);
    EnqueuePair(s1, u, a, b);
  }

  lemma SetEffectivePriorityPair(s: State, u: TaskId, p: nat, a: TaskId, b: TaskId)
    requires ReadyBefore(s, a, b) && (u == a || u == b ==> p == s.tasks[u].eff)
    ensures ReadyBefore(SetEffectivePriority(s, u, p), a, b)
  {
    var task, r := s.tasks[u], SetEffectivePriority(s, u, p);
    if 0 < p < PRIORITY_COUNT && task.eff != p && task.state == Ready && u in At(s.lists, ReadyList(task.eff)) {
      assert r == MoveReady(s, u, p);
      MoveReadyPair(s, u, p, a, b);
    } else {
      SameReadyLists(s, u, p);
      assert SamePair(s, r, a, b);
    }
  }

  lemma {:induction false} ApplyFromPair(s: State, want: seq<nat>, k: nat, a: TaskId, b: TaskId)
    requires |want| == MAX_TASKS && want[a] == s.tasks[a].eff && want[b] == s.tasks[b].eff && ReadyBefore(s, a, b)
    ensures ReadyBefore(ApplyFrom(s, want, k), a, b)
    decreases MAX_TASKS - k
  {
    if k < MAX_TASKS {
      var s1 := SetEffectivePriority(s, k, want[k]);
      SetEffectivePriorityPair(s, k, want[k], a, b);
      assert SamePair(s, s1, a, b);
      ApplyFromPair(s1, want, k + 1, a, b);
    }
  }

  // ----- Waking the head of the delay list

  /** The state in which t, just popped, is about to join its ready list. */
  lemma RiseUnfolds(s: State, t: TaskId)
    requires s.delayed[s.px] != [] && t == s.delayed[s.px][0] && s.tasks[t].state == BlockedObject
    ensures var s1 := LeaveWaitList(PopDelayed(s), t);
            (s1.tasks[t].wait.Some? ==> t !in At(s1.lists, WaitList(s1.tasks[t].wait.value))) ==>
              TimedOut(s, t) == ReadyEnqueue(SetTask(s1, t, Woken(s1.tasks[t], Timeout)), t)
  {
  }

  lemma LeftWaitList(s: State, t: TaskId)
    requires Distinct(s.lists)
    ensures var s1 := LeaveWaitList(s, t);
              s1.tasks[t].wait.Some? ==> t !in At(s1.lists, WaitList(s1.tasks[t].wait.value))
    ensures forall p: Priority :: At(LeaveWaitList(s, t).lists, ReadyList(p)) == At(s.lists, ReadyList(p))
  {
    var w := s.tasks[t].wait;
    if w.Some? && t in At(s.lists, WaitList(w.value)) {
      assert NoDuplicates(At(s.lists, WaitList(w.value)));
      WithoutMembers(At(s.lists, WaitList(w.value)), t);
    }
  }

  /** The state e before t joins its ready list: only t differs, and no ready list. */
  ghost predicate Rising(s: State, t: TaskId, e: State) {
    && e.tasks[t].state == Ready && (forall u: TaskId :: u != t ==> e.tasks[u] == s.tasks[u])
       && e.tasks[t].eff == s.tasks[t].eff
    && forall p: Priority :: At(e.lists, ReadyList(p)) == At(s.lists, ReadyList(p))
  }

  lemma RisingDelayed(s: State, t: TaskId) returns (e: State)
    requires Ticking(s) && s.delayed[s.px] != [] && t == s.delayed[s.px][0] && s.tasks[t].state == BlockedDelay
    ensures Rising(s, t, e) && ExpireHead(s) == ReadyEnqueue(e, t)
  {
    var s1 := PopDelayed(s);
    e := SetTask(s1, t, s1.tasks[t].(state := Ready));
  }

  lemma RisingWaiter(s: State, t: TaskId) returns (e: State)
    requires Ticking(s) && s.delayed[s.px] != [] && t == s.delayed[s.px][0] && s.tasks[t].state == BlockedObject
    ensures Rising(s, t, e) && TimedOut(s, t) == ReadyEnqueue(e, t)
  {
    var s1 := LeaveWaitList(PopDelayed(s), t);
    LeftWaitList(PopDelayed(s), t);
    RiseUnfolds(s, t);
    e := SetTask(s1, t, Woken(s1.tasks[t], Timeout));
  }

  /** What has become of a and b: both asleep in order, or a already ready, or both ready in order. */
  ghost predicate Stage(s: State, a: TaskId, b: TaskId) {
    || ReadyBefore(s, a, b)
    || (s.tasks[a].state == Ready && Due(s, b))
    || (Due(s, a) && Due(s, b) && Before(s.delayed[s.px], a, b))
  }

  lemma EnqueueStage(s: State, t: TaskId, e: State, a: TaskId, b: TaskId)
    requires Containers(s, {}) && Rising(s, t, e) && s.tasks[t].state != Ready && s.tasks[a].eff == s.tasks[b].eff
    ensures ReadyBefore(s, a, b) ==> ReadyBefore(ReadyEnqueue(e, t), a, b)
    ensures s.tasks[a].state == Ready && t == b ==> ReadyBefore(ReadyEnqueue(e, t), a, b)
  {
    if ReadyBefore(s, a, b) { EnqueuePair(e, t, a, b); }
    if s.tasks[a].state == Ready && t == b {
      assert a in At(s.lists, ReadyList(s.tasks[a].eff)) && b !in At(s.lists, ReadyList(s.tasks[b].eff));
      EnqueueBehind(e, a, b);
    }
  }

  lemma RecomputePair(s: State, r: State, a: TaskId, b: TaskId)
    requires r == WaitersChanged(s) && ReadyBefore(s, a, b)
    requires Inherited(GraphOf(s))[a] == s.tasks[a].eff && Inherited(GraphOf(s))[b] == s.tasks[b].eff
    ensures ReadyBefore(r, a, b)
  {
    ApplyFromPair(s, Inherited(GraphOf(s)), 0, a, b);
  }

  lemma TimeoutPair(s: State, t: TaskId, s2: State, s1: State, a: TaskId, b: TaskId)
    requires Ticking(s) && s.delayed[s.px] != [] && t == s.delayed[s.px][0] && s.tasks[t].state == BlockedObject
    requires s2 == TimedOut(s, t) && s1 == WaitersChanged(s2) && SamePair(s, s1, a, b) && ReadyBefore(s2, a, b)
    ensures ReadyBefore(s1, a, b)
  {
    TimedOutKeeps(s, t);
    TimedOutObjects(s, t, s2);
    RecomputeKeeps(s2, true);
    RecomputePair(s2, s1, a, b);
  }

  /** Waking the head keeps a ready pair in order, and puts b behind a ready a. */
  lemma ExpireHeadPair(s: State, s1: State, t: TaskId, a: TaskId, b: TaskId)
    requires Ticking(s) && HeadIsDue(s) && s1 == ExpireHead(s) && t == s.delayed[s.px][0]
    requires SamePair(s, s1, a, b) && s.tasks[a].eff == s.tasks[b].eff
    requires ReadyBefore(s, a, b) || (s.tasks[a].state == Ready && t == b)
    ensures ReadyBefore(s1, a, b)
  {
    HeadIsDueExactly(s);
    assert Coherent(s.tasks[t]);
    if s.tasks[t].state == BlockedDelay {
      var e := RisingDelayed(s, t);
      EnqueueStage(s, t, e, a, b);
    } else {
      var e := RisingWaiter(s, t);
      EnqueueStage(s, t, e, a, b);
      if s.tasks[t].wait.value.MutexList? { TimeoutPair(s, t, TimedOut(s, t), s1, a, b); }
    }
  }

  lemma HeadOfPair(q: seq<TaskId>, a: TaskId, b: TaskId)
    requires NoDuplicates(q) && Before(q, a, b)
    ensures a != b && q != [] && q[0] != b
  {
    var i, j :| 0 <= i < j < |q| && q[i] == a && q[j] == b;
  }

  lemma StillDue(s: State, t: TaskId, s1: State, u: TaskId)
    requires Expired(s, t, s1) && Due(s, u) && u != t
    ensures Due(s1, u)
  {
  }

  lemma SleepersAdvance(s: State, s1: State, t: TaskId, a: TaskId, b: TaskId)
    requires Expired(s, t, s1) && t != b && Due(s, a) && Due(s, b) && Before(s.delayed[s.px], a, b)
    requires t != a ==> KeepsSleepers(s, s1, a, b)
    ensures if t == a then s1.tasks[a].state == Ready && Due(s1, b)
            else Due(s1, a) && Due(s1, b) && Before(s1.delayed[s1.px], a, b)
  {
    StillDue(s, t, s1, b);
    if t != a { StillDue(s, t, s1, a); }
  }

  lemma ReadyStays(s: State, t: TaskId, s1: State, a: TaskId)
    requires Expired(s, t, s1) && s.tasks[a].state == Ready
    ensures s1.tasks[a].state == Ready
  {
  }

  /** What waking the head t does to the pair, in each of its stages. */
  ghost predicate HeadWoken(s: State, t: TaskId, s1: State, a: TaskId, b: TaskId) {
    && Expired(s, t, s1)
    && (ReadyBefore(s, a, b) || (s.tasks[a].state == Ready && t == b) ==> ReadyBefore(s1, a, b))
    && (t != a && t != b ==> KeepsSleepers(s, s1, a, b))
  }

  lemma WakingHead(s: State, t: TaskId, s1: State, a: TaskId, b: TaskId)
    requires Ticking(s) && HeadIsDue(s) && s1 == ExpireHead(s) && t == s.delayed[s.px][0] && Expired(s, t, s1)
    requires SamePair(s, s1, a, b) && s.tasks[a].eff == s.tasks[b].eff
    ensures HeadWoken(s, t, s1, a, b)
  {
    if ReadyBefore(s, a, b) || (s.tasks[a].state == Ready && t == b) { ExpireHeadPair(s, s1, t, a, b); }
    if t != a && t != b { ExpireHeadSleepers(s, a, b); }
  }

  lemma StageAdvances(s: State, t: TaskId, s1: State, a: TaskId, b: TaskId)
    requires DelayDistinct(s.delayed) && s.delayed[s.px] != [] && t == s.delayed[s.px][0] && HeadWoken(s, t, s1, a, b)
             && Stage(s, a, b)
    ensures Stage(s1, a, b)
  {
    if ReadyBefore(s, a, b) || (s.tasks[a].state == Ready && t == b) {
      assert ReadyBefore(s1, a, b);
    } else if s.tasks[a].state == Ready {
      ReadyStays(s, t, s1, a);
      StillDue(s, t, s1, b);
    } else {
      HeadOfPair(s.delayed[s.px], a, b);
      SleepersAdvance(s, s1, t, a, b);
    }
  }

  lemma {:induction false} ExpireLoopPair(s: State, woke: bool, r: State, a: TaskId, b: TaskId)
    requires Ticking(s) && (woke ==> Beaten(s)) && r == ExpireLoop(s, woke).0
    requires Stage(s, a, b) && SamePair(s, r, a, b) && s.tasks[a].eff == s.tasks[b].eff
    ensures ReadyBefore(r, a, b)
    decreases |s.delayed[s.px]|
  {
    if HeadIsDue(s) {
      var t, s1 := s.delayed[s.px][0], ExpireHead(s);
      ExpireHeadKeeps(s);
      ExpiredKeepsVerdict(s, t, s1);
      ExpireLoopKeeps(s1, woke || Outranks(s1, t));
      WakingHead(s, t, s1, a, b);
      StageAdvances(s, t, s1, a, b);
      ExpireLoopPair(s1, woke || Outranks(s1, t), r, a, b);
    } else {
      NoneLeftBehind(s);
      assert OnTime(s.tasks[a], s.px, s.tick, false) && OnTime(s.tasks[b], s.px, s.tick, false);
    }
  }

  // ----- The end of the tick

  /** a runs, or it still stands before b. */
  ghost predicate FirstServed(r: State, a: TaskId, b: TaskId) {
    r.current == Some(a) || ReadyBefore(r, a, b)
  }

  lemma PickPair(s: State, a: TaskId, b: TaskId)
    requires ReadyBefore(s, a, b)
    ensures FirstServed(PickNext(s), a, b)
  {
    var q := At(s.lists, ReadyList(s.tasks[a].eff));
    var i, j :| 0 <= i < j < |q| && q[i] == a && q[j] == b;
    if q[0] != a { BeforePop(q, a, b); }
  }

  lemma SchedulePair(s: State, rotate: bool, a: TaskId, b: TaskId)
    requires ReadyBefore(s, a, b) && (s.current.Some? ==> s.tasks[s.current.value].state == Running)
    requires s.current != Some(a) && s.current != Some(b)
    ensures FirstServed(Schedule(s, rotate), a, b)
  {
    if s.started {
      if CurrentRuns(s) {
        var c := s.current.value;
        var s1 := SetTask(s, c, s.tasks[c].(state := Ready));
        EnqueuePair(s1, c, a, b);
        PickPair(Requeue(s, c), a, b);
      } else {
        PickPair(s, a, b);
      }
    }
  }

  lemma EndTickPair(s: State, woke: bool, r: State, a: TaskId, b: TaskId)
    requires ReadyBefore(s, a, b) && OneRuns(s.tasks, s.current) && s.tasks[a].state == Ready
             && s.tasks[b].state == Ready
    requires r == EndTick(s, woke)
    ensures FirstServed(r, a, b)
  {
    if (s.current == None && ReadyHighest(s) >= 0) || woke {
      SchedulePair(s, false, a, b);
    } else if s.current.Some? && s.tasks[s.current.value].slice == 0 {
      SchedulePair(s, true, a, b);
      FreshSlicePair(Schedule(s, true), s.current.value, a, b);
    }
  }

  lemma FreshSlicePair(s: State, c: TaskId, a: TaskId, b: TaskId)
    requires FirstServed(s, a, b)
    ensures FirstServed(SetTask(s, c, s.tasks[c].(slice := TIME_SLICE_TICKS)), a, b)
  {
  }

  lemma SpendPair(s: State, a: TaskId, b: TaskId)
    requires ReadyBefore(s, a, b) && OneRuns(s.tasks, s.current)
    ensures var r := SpendSlice(s); ReadyBefore(r, a, b) && OneRuns(r.tasks, r.current)
    ensures SpendSlice(s).tasks[a].state == s.tasks[a].state && SpendSlice(s).tasks[b].state == s.tasks[b].state
  {
  }

  /** If one tick wakes both a and b, which slept in this order and keep equal priorities, then
      afterwards a runs or stands before b in their ready list. */
  lemma WakesInOrder(s: State, r: State, d: DelayIndex, a: TaskId, b: TaskId)
    requires Inv(s) && r == Next(s, Op.Tick) && Before(s.delayed[d], a, b) && TimeUp(s, a) && TimeUp(s, b)
    requires s.tasks[a].eff == s.tasks[b].eff && SamePair(s, r, a, b)
    ensures FirstServed(r, a, b)
  {
    TickInOrder(s, r, d, a, b);
  }

  lemma TickInOrder(s: State, r: State, d: DelayIndex, a: TaskId, b: TaskId)
    requires Inv(s) && r == TimeTick(s) && Before(s.delayed[d], a, b) && TimeUp(s, a) && TimeUp(s, b)
    requires s.tasks[a].eff == s.tasks[b].eff && SamePair(s, r, a, b)
    ensures FirstServed(r, a, b)
  {
    var s0 := AdvanceClock(s);
    assert Ticking(s0) && s0.tasks == s.tasks by { AdvanceKeeps(s); }
    assert Stage(s0, a, b) by { StartsInOrder(s, s0, d, a, b); }
    TickPairFrom(s0, r, a, b);
  }

  lemma TickPairFrom(s: State, r: State, a: TaskId, b: TaskId)
    requires Ticking(s) && Stage(s, a, b) && s.tasks[a].eff == s.tasks[b].eff && SamePair(s, r, a, b)
    requires r == EndTick(SpendSlice(ExpireLoop(s, false).0), ExpireLoop(s, false).1)
    ensures FirstServed(r, a, b)
  {
    ExpireLoopKeeps(s, false);
    TickPair(s, ExpireLoop(s, false).0, ExpireLoop(s, false).1, r, a, b);
  }

  lemma TickPair(s: State, s1: State, woke: bool, r: State, a: TaskId, b: TaskId)
    requires Ticking(s) && Stage(s, a, b) && (s1, woke) == ExpireLoop(s, false) && AllExpired(s, false, s1, woke)
    requires r == EndTick(SpendSlice(s1), woke) && s.tasks[a].eff == s.tasks[b].eff && SamePair(s, r, a, b)
    ensures FirstServed(r, a, b)
  {
    assert Settled(s1) by { NoneLeftBehind(s1); }
    assert SamePair(s1, r, a, b) by { EndTickEff(s1, woke); }
    ExpireLoopPair(s, false, s1, a, b);
    AfterExpiry(s1, woke, r, a, b);
  }

  lemma AfterExpiry(s: State, woke: bool, r: State, a: TaskId, b: TaskId)
    requires Containers(s, {}) && OneRuns(s.tasks, s.current) && ReadyBefore(s, a, b)
             && r == EndTick(SpendSlice(s), woke)
    ensures FirstServed(r, a, b)
  {
    PairIsReady(s, a, b);
    SpendPair(s, a, b);
    EndTickPair(SpendSlice(s), woke, r, a, b);
  }

  lemma StartsInOrder(s: State, s0: State, d: DelayIndex, a: TaskId, b: TaskId)
    requires Delays(s, false) && s0 == AdvanceClock(s) && Before(s.delayed[d], a, b) && TimeUp(s, a) && TimeUp(s, b)
    ensures Stage(s0, a, b)
  {
    DueMeansTimeUp(s, a);
    DueMeansTimeUp(s, b);
    assert a in s.delayed[d];
  }

  lemma PairIsReady(s: State, a: TaskId, b: TaskId)
    requires Containers(s, {}) && ReadyBefore(s, a, b)
    ensures s.tasks[a].state == Ready && s.tasks[b].state == Ready
  {
    var l := ReadyList(s.tasks[a].eff);
    assert a in At(s.lists, l) && b in At(s.lists, l);
    assert Home(s.tasks[a]) == Some(l) && Home(s.tasks[b]) == Some(l);
  }
}
