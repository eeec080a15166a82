/** Time slicing is fair: a ready task waits a bounded number of ticks behind its equals. */
module RoundRobin {
  import opened Wrappers
  import opened ReadyBitmap
  import opened KernelState
  import opened TaskLists
  import opened Sched
  import opened KernelObjects
  import opened Time
  import opened Inheritance
  import opened Placement
  import opened DelayLists
  import opened Invariants
  import opened SchedProofs
  import opened MutexProofs
  import opened TickProofs
  import opened Machine

  ghost predicate Queued(s: State, t: TaskId) {
    t in At(s.lists, ReadyList(s.tasks[t].eff))
  }

  /** How many tasks of its own priority are ahead of t in the ready list. */
  ghost function Ahead(s: State, t: TaskId): nat
    requires Queued(s, t)
  {
    IndexOf(At(s.lists, ReadyList(s.tasks[t].eff)), t)
  }

  /** t keeps its priority and nobody overtakes it. */
  ghost predicate HoldsPlace(s: State, r: State, t: TaskId) {
    && r.tasks[t].eff == s.tasks[t].eff && r.tasks[t].state == s.tasks[t].state
    && (Queued(s, t) ==> Queued(r, t) && Ahead(r, t) <= Ahead(s, t))
  }

  lemma HoldsPlaceTrans(a: State, b: State, c: State, t: TaskId)
    requires HoldsPlace(a, b, t) && HoldsPlace(b, c, t)
    ensures HoldsPlace(a, c, t)
  {
  }

  // ----- Positions under the list operations

  lemma IndexAfterPush(q: seq<TaskId>, u: TaskId, t: TaskId)
    requires t in q
    ensures t in q + [u] && IndexOf(q + [u], t) == IndexOf(q, t)
  {
    IndexUnique(q + [u], t, IndexOf(q, t));
  }

  lemma IndexUnique(q: seq<TaskId>, t: TaskId, i: nat)
    requires i < |q| && q[i] == t && t !in q[..i]
    ensures t in q && IndexOf(q, t) == i
  {
    var j := IndexOf(q, t);
    forall k | 0 <= k < i ensures q[k] != t { assert q[k] == q[..i][k]; }
    forall k | 0 <= k < j ensures q[k] != t { assert q[k] == q[..j][k]; }
  }

  lemma IndexAfterWithout(q: seq<TaskId>, u: TaskId, t: TaskId)
    requires t in q && u in q && u != t
    ensures t in Without(q, u) && IndexOf(Without(q, u), t) <= IndexOf(q, t)
  {
    var i, k, r := IndexOf(q, t), IndexOf(q, u), Without(q, u);
    if i < k {
      assert r[..i] == q[..i];
      IndexUnique(r, t, i);
    } else {
      assert r[i - 1] == t;
      forall j | 0 <= j < i - 1 ensures r[j] != t {
        if j < k { assert q[..i][j] == r[j]; } else { assert q[..i][j + 1] == r[j]; }
      }
      IndexUnique(r, t, i - 1);
    }
  }

  lemma IndexAfterPop(q: seq<TaskId>, t: TaskId)
    requires t in q && q[0] != t
    ensures t in q[1..] && IndexOf(q[1..], t) == IndexOf(q, t) - 1
  {
    var i := IndexOf(q, t);
    forall j | 0 <= j < i - 1 ensures q[1..][j] != t { assert q[..i][j + 1] == q[1..][j]; }
    IndexUnique(q[1..], t, i - 1);
  }

  // ----- Positions while expired tasks are woken

  lemma EnqueueHolds(s: State, u: TaskId, t: TaskId)
    ensures HoldsPlace(s, ReadyEnqueue(s, u), t)
  {
    var q := At(s.lists, ReadyList(s.tasks[t].eff));
    if t in q { IndexAfterPush(q, u, t); }
  }

  lemma MoveReadyHolds(s: State, u: TaskId, p: Priority, t: TaskId)
    requires u != t && u in At(s.lists, ReadyList(s.tasks[u].eff))
    ensures HoldsPlace(s, MoveReady(s, u, p), t)
  {
    RemoveHolds(s, u, t);
    var s0 := ReadyRemove(s, u);
    var s1 := SetTask(s0, u, s.tasks[u].(eff := p));
    RetaskHolds(s0, u, s.tasks[u].(eff := p), t);
    EnqueueHolds(s1, u, t);
    HoldsPlaceTrans(s, s0, s1, t);
    HoldsPlaceTrans(s, s1, MoveReady(s, u, p), t);
  }

  lemma RemoveHolds(s: State, u: TaskId, t: TaskId)
    requires u != t
    ensures HoldsPlace(s, ReadyRemove(s, u), t)
  {
    var l := ReadyList(s.tasks[u].eff);
    var q := At(s.lists, l);
    if u in q {
      var r := ReadyRemove(s, u);
      assert forall k: ListId :: At(r.lists, k) == if k == l then Without(q, u) else At(s.lists, k);
      if t in q { IndexAfterWithout(q, u, t); }
    }
  }

  lemma RetaskHolds(s: State, u: TaskId, task: Task, t: TaskId)
    requires u != t
    ensures HoldsPlace(s, SetTask(s, u, task), t)
  {
  }

  lemma SetEffectivePriorityHolds(s: State, u: TaskId, p: nat, t: TaskId)
    requires u == t ==> p == s.tasks[t].eff
    ensures HoldsPlace(s, SetEffectivePriority(s, u, p), t)
  {
    var task := s.tasks[u];
    if 0 < p < PRIORITY_COUNT && task.eff != p && task.state == Ready && u in At(s.lists, ReadyList(task.eff)) {
      MoveReadyHolds(s, u, p, t);
    } else {
      SameReadyLists(s, u, p);
      SameListsHold(s, SetEffectivePriority(s, u, p), t);
    }
  }

  lemma SameListsHold(s: State, r: State, t: TaskId)
    requires forall k: Priority :: At(r.lists, ReadyList(k)) == At(s.lists, ReadyList(k))
    requires r.tasks[t].eff == s.tasks[t].eff && r.tasks[t].state == s.tasks[t].state
    ensures HoldsPlace(s, r, t)
  {
  }

  lemma {:induction false} ApplyFromHolds(s: State, want: seq<nat>, k: nat, t: TaskId)
    requires |want| == MAX_TASKS && want[t] == s.tasks[t].eff
    ensures HoldsPlace(s, ApplyFrom(s, want, k), t)
    decreases MAX_TASKS - k
  {
    if k < MAX_TASKS {
      var s1 := SetEffectivePriority(s, k, want[k]);
      SetEffectivePriorityHolds(s, k, want[k], t);
      ApplyFromHolds(s1, want, k + 1, t);
      HoldsPlaceTrans(s, s1, ApplyFrom(s1, want, k + 1), t);
    }
  }

  lemma MakeReadyHolds(s: State, u: TaskId, result: Status, t: TaskId)
    requires u != t
    ensures HoldsPlace(s, MakeReady(s, u, result), t)
  {
    var s1 := DelayRemove(s, u);
    var s2 := SetTask(s1, u, Woken(s1.tasks[u], result));
    EnqueueHolds(s2, u, t);
  }

  lemma ExpireHeadHolds(s: State, t: TaskId)
    requires Ticking(s) && HeadIsDue(s) && s.tasks[t].state == Ready && ExpireHead(s).tasks[t].eff == s.tasks[t].eff
    ensures HoldsPlace(s, ExpireHead(s), t)
  {
    var u := s.delayed[s.px][0];
    HeadIsDueExactly(s);
    assert Coherent(s.tasks[u]);
    var s1 := PopDelayed(s);
    assert HoldsPlace(s, s1, t);
    if s.tasks[u].state == BlockedDelay {
      EnqueueHolds(SetTask(s1, u, s1.tasks[u].(state := Ready)), u, t);
    } else {
      TimedOutHolds(s, u, t);
      if s.tasks[u].wait.value.MutexList? {
        RecomputeHolds(s, u, t);
        HoldsPlaceTrans(s, TimedOut(s, u), ExpireHead(s), t);
      }
    }
  }

  lemma TimedOutHolds(s: State, u: TaskId, t: TaskId)
    requires s.delayed[s.px] != [] && u == s.delayed[s.px][0] && u != t
    ensures HoldsPlace(s, TimedOut(s, u), t)
  {
    var s1 := PopDelayed(s);
    var s2 := LeaveWaitList(s1, u);
    assert HoldsPlace(s, s2, t);
    MakeReadyHolds(s2, u, Timeout, t);
    HoldsPlaceTrans(s, s2, TimedOut(s, u), t);
  }

  lemma RecomputeHolds(s: State, u: TaskId, t: TaskId)
    requires Ticking(s) && s.delayed[s.px] != [] && u == s.delayed[s.px][0] && s.tasks[u].state == BlockedObject
    requires WaitersChanged(TimedOut(s, u)).tasks[t].eff == TimedOut(s, u).tasks[t].eff
    ensures HoldsPlace(TimedOut(s, u), WaitersChanged(TimedOut(s, u)), t)
  {
    var s2 := TimedOut(s, u);
    TimedOutKeeps(s, u);
    TimedOutObjects(s, u, s2);
    RecomputeKeeps(s2, true);
    ApplyFromHolds(s2, Inherited(GraphOf(s2)), 0, t);
  }

  lemma {:induction false} ExpireLoopHolds(s: State, woke: bool, t: TaskId)
    requires Ticking(s) && (woke ==> Beaten(s)) && s.tasks[t].state == Ready
    requires ExpireLoop(s, woke).0.tasks[t].eff == s.tasks[t].eff
    ensures HoldsPlace(s, ExpireLoop(s, woke).0, t)
    decreases |s.delayed[s.px]|
  {
    if HeadIsDue(s) {
      var u := s.delayed[s.px][0];
      var s1 := ExpireHead(s);
      ExpireHeadKeeps(s);
      ExpiredKeepsVerdict(s, u, s1);
      var woke1 := woke || Outranks(s1, u);
      ExpireLoopKeeps(s1, woke1);
      ExpireHeadHolds(s, t);
      ExpireLoopHolds(s1, woke1, t);
      HoldsPlaceTrans(s, s1, ExpireLoop(s1, woke1).0, t);
    }
  }

  // ----- The switch at the end of the tick

  /** The first task of the highest ready list leaves it; everybody else there moves up. */
  lemma PickNextAdvances(s: State, t: TaskId)
    requires Containers(s, {}) && NoneRuns(s.tasks) && s.tasks[t].state == Ready && ReadyHighest(s) == s.tasks[t].eff
    ensures var r := PickNext(s);
            && r.current.Some? && r.tasks[r.current.value].eff == s.tasks[t].eff
               && r.tasks[r.current.value].slice == TIME_SLICE_TICKS
            && (r.current == Some(t)
                || (HoldsPlace(s, r, t) && Queued(s, t) && Queued(r, t) && Ahead(r, t) == Ahead(s, t) - 1))
  {
    ReadyHighestIsHighest(s);
    var q := At(s.lists, ReadyList(s.tasks[t].eff));
    assert t in q;
    if q[0] != t { IndexAfterPop(q, t); }
  }

  /** Ticks that t still has to wait at most: full slices of the tasks ahead and the rest of the current one. */
  ghost function Rank(s: State, t: TaskId): nat
    requires Queued(s, t) && s.current.Some?
  {
    Ahead(s, t) * TIME_SLICE_TICKS + s.tasks[s.current.value].slice
  }

  /** No task above priority p is ready or running. */
  ghost predicate NoneAbove(s: State, p: nat) {
    forall u: TaskId :: Runnable(s.tasks[u].state) ==> s.tasks[u].eff <= p
  }

  lemma SwitchAdvances(s: State, c: TaskId, t: TaskId)
    requires Containers(s, {}) && OneRuns(s.tasks, Some(c)) && s.tasks[t].state == Ready && Queued(s, t)
    requires ReadyHighest(s) >= s.tasks[c].eff
    requires NoneAbove(PickNext(Requeue(s, c)), s.tasks[t].eff)
    ensures var r := PickNext(Requeue(s, c));
            && r.current.Some? && r.tasks[r.current.value].slice == TIME_SLICE_TICKS
            && (r.current == Some(t) || (r.tasks[t].state == Ready && Queued(r, t) && Ahead(r, t) == Ahead(s, t) - 1))
  {
    var s1 := Requeue(s, c);
    RequeueKeeps(s, c);
    RequeueHolds(s, c, t);
    ReadyHighestIsHighest(s1);
    PickNextKeeps(s1);
    PopHighestTakes(s1);
    var n := PopHighest(s1).1.value;
    assert PickNext(s1).tasks[n].eff == ReadyHighest(s1);
    PickNextAdvances(s1, t);
  }

  lemma RequeueHolds(s: State, c: TaskId, t: TaskId)
    requires c != t && Queued(s, t)
    ensures HoldsPlace(s, Requeue(s, c), t) && Ahead(Requeue(s, c), t) == Ahead(s, t)
  {
    var s1 := SetTask(s, c, s.tasks[c].(state := Ready));
    var q := At(s.lists, ReadyList(s.tasks[t].eff));
    IndexAfterPush(q, c, t);
  }

  lemma PreemptUnfolds(s: State, c: TaskId)
    requires s.started && s.current == Some(c) && s.tasks[c].state == Running && Beaten(s)
    requires forall u: TaskId :: s.tasks[u].state == Ready ==> s.tasks[u].eff <= ReadyHighest(s)
    ensures EndTick(s, true) == PickNext(Requeue(s, c)) && ReadyHighest(s) > s.tasks[c].eff
  {
    var u: TaskId :| s.tasks[u].state == Ready && Outranks(s, u);
  }

  /** Rotation picks somebody else, so the slice that is refilled is that of the new task. */
  lemma RotateUnfolds(s: State, c: TaskId)
    requires Containers(s, {}) && OneRuns(s.tasks, Some(c)) && s.started && s.current == Some(c)
    requires s.tasks[c].slice == 0 && ReadyHighest(s) >= s.tasks[c].eff
    ensures var r := PickNext(Requeue(s, c));
            EndTick(s, false) ==
              if r.current == Some(c) then SetTask(r, c, r.tasks[c].(slice := TIME_SLICE_TICKS)) else r
  {
  }

  lemma NoRotation(s: State, c: TaskId)
    requires s.started && s.current == Some(c) && s.tasks[c].state == Running && s.tasks[c].slice == 0
    requires ReadyHighest(s) < s.tasks[c].eff
    ensures EndTick(s, false).tasks[c] == s.tasks[c].(slice := TIME_SLICE_TICKS)
  {
  }

  /** t runs, or nobody overtook it and r may need n more ticks before it runs. */
  ghost predicate Nearer(s: State, r: State, t: TaskId, n: nat)
    requires Queued(s, t)
  {
    r.current == Some(t) ||
    (r.current.Some? && r.tasks[t].state == Ready && Queued(r, t) && Rank(r, t) <= Ahead(s, t) * TIME_SLICE_TICKS + n)
  }

  lemma RotateAdvances(s: State, t: TaskId, c: TaskId, r: State)
    requires Settled(s) && OneRuns(s.tasks, s.current) && s.current == Some(c) && s.started && s.tasks[c].slice == 0
    requires s.tasks[t].state == Ready && Queued(s, t) && r == EndTick(s, false) && NoneAbove(r, s.tasks[t].eff)
    ensures Nearer(s, r, t, 0)
  {
    ReadyHighestIsHighest(s);
    if ReadyHighest(s) < s.tasks[c].eff { NoRotation(s, c); }
    RotateUnfolds(s, c);
    var m := PickNext(Requeue(s, c));
    if ReadyHighest(s) >= s.tasks[c].eff {
      forall u: TaskId | Runnable(m.tasks[u].state) ensures m.tasks[u].eff <= s.tasks[t].eff {
        assert r.tasks[u].state == m.tasks[u].state && r.tasks[u].eff == m.tasks[u].eff;
      }
      SwitchAdvances(s, c, t);
    }
  }

  /** One more tick: t runs, or it is no further from running than the spent slice says. */
  lemma EndTickAdvances(s: State, woke: bool, t: TaskId, c: TaskId, r: State)
    requires Settled(s) && OneRuns(s.tasks, s.current) && s.current == Some(c) && s.started
    requires woke ==> Beaten(s)
    requires s.tasks[t].state == Ready && Queued(s, t) && r == EndTick(s, woke) && NoneAbove(r, s.tasks[t].eff)
    ensures Nearer(s, r, t, s.tasks[c].slice)
  {
    ReadyHighestIsHighest(s);
    if woke {
      PreemptUnfolds(s, c);
      SwitchAdvances(s, c, t);
    } else if s.tasks[c].slice == 0 {
      RotateAdvances(s, t, c, r);
    }
  }

  lemma TickAdvances(s: State, t: TaskId, r: State)
    requires Inv(s) && s.started && !s.pending && s.tasks[t].state == Ready && r == TimeTick(s)
    requires r.tasks[t].eff == s.tasks[t].eff && NoneAbove(r, s.tasks[t].eff)
    ensures s.current.Some? && Queued(s, t)
    ensures r.current == Some(t)
            || (r.current.Some? && r.tasks[t].state == Ready && Queued(r, t) && Rank(r, t) < Rank(s, t))
  {
    assert Home(s.tasks[t]) == Some(ReadyList(s.tasks[t].eff));
    AdvanceKeeps(s);
    var s0 := AdvanceClock(s);
    ExpireLoopKeeps(s0, false);
    var (s1, woke) := ExpireLoop(s0, false);
    assert Settled(s1) by { NoneLeftBehind(s1); }
    assert 1 <= s.tasks[s.current.value].slice;
    ExpiredAdvances(s0, s.current.value, t, s1, woke, r);
  }

  lemma ExpiredAdvances(s0: State, c: TaskId, t: TaskId, s1: State, woke: bool, r: State)
    requires Ticking(s0) && s0.started && s0.current == Some(c) && s0.tasks[t].state == Ready && Queued(s0, t)
    requires (s1, woke) == ExpireLoop(s0, false) && AllExpired(s0, false, s1, woke) && Settled(s1)
    requires r == EndTick(SpendSlice(s1), woke) && r.tasks[t].eff == s0.tasks[t].eff && NoneAbove(r, s0.tasks[t].eff)
    requires s0.tasks[c].slice >= 1
    ensures r.current == Some(t)
            || (r.current.Some? && r.tasks[t].state == Ready && Queued(r, t) && Rank(r, t) < Rank(s0, t))
  {
    assert s1.tasks[t].eff == s0.tasks[t].eff by { SpentFrame(s1, woke, t); }
    assert HoldsPlace(s0, s1, t) by { ExpireLoopHolds(s0, false, t); }
    HeldAdvances(s0, c, t, s1, woke, r);
  }

  lemma SpentFrame(s1: State, woke: bool, t: TaskId)
    requires Settled(s1) && OneRuns(s1.tasks, s1.current) && (woke ==> Beaten(s1))
    ensures EndTick(SpendSlice(s1), woke).tasks[t].eff == s1.tasks[t].eff
  {
    SpendKeeps(s1, woke);
    EndTickFrame(SpendSlice(s1), woke);
  }

  lemma HeldAdvances(s0: State, c: TaskId, t: TaskId, s1: State, woke: bool, r: State)
    requires Settled(s1) && OneRuns(s1.tasks, s1.current) && s1.current == Some(c) && s1.started
             && (woke ==> Beaten(s1))
    requires s0.current == Some(c) && s0.tasks[t].state == Ready && Queued(s0, t) && HoldsPlace(s0, s1, t) && c != t
    requires s1.tasks[c].slice == s0.tasks[c].slice >= 1
    requires r == EndTick(SpendSlice(s1), woke) && NoneAbove(r, s0.tasks[t].eff)
    ensures r.current == Some(t)
            || (r.current.Some? && r.tasks[t].state == Ready && Queued(r, t) && Rank(r, t) < Rank(s0, t))
  {
    var s2 := SpendSlice(s1);
    assert Settled(s2) && OneRuns(s2.tasks, s2.current) && s2.current == Some(c) && (woke ==> Beaten(s2)) by {
      SpendKeeps(s1, woke);
    }
    SpendHolds(s0, s1, c, t);
    SpentAdvances(s0, c, t, s2, woke, r);
  }

  lemma SpentAdvances(s0: State, c: TaskId, t: TaskId, s2: State, woke: bool, r: State)
    requires Settled(s2) && OneRuns(s2.tasks, s2.current) && s2.current == Some(c) && s2.started
             && (woke ==> Beaten(s2))
    requires s0.current == Some(c) && Queued(s0, t) && Queued(s2, t) && s2.tasks[t].state == Ready
             && Ahead(s2, t) <= Ahead(s0, t)
    requires s2.tasks[c].slice == s0.tasks[c].slice - 1 && r == EndTick(s2, woke) && NoneAbove(r, s2.tasks[t].eff)
    ensures r.current == Some(t)
            || (r.current.Some? && r.tasks[t].state == Ready && Queued(r, t) && Rank(r, t) < Rank(s0, t))
  {
    EndTickAdvances(s2, woke, t, c, r);
  }

  /** Spending a tick of the slice moves nobody; it takes one tick off the slice of c. */
  lemma SpendHolds(s0: State, s1: State, c: TaskId, t: TaskId)
    requires s1.current == Some(c) && HoldsPlace(s0, s1, t) && Queued(s0, t) && c != t
             && s1.tasks[c].slice == s0.tasks[c].slice >= 1
    ensures var s2 := SpendSlice(s1);
            Queued(s2, t) && s2.tasks[t].state == s0.tasks[t].state && Ahead(s2, t) <= Ahead(s0, t)
              && s2.tasks[c].slice == s0.tasks[c].slice - 1
  {
  }

  lemma EndTickFrame(s: State, woke: bool)
    requires Settled(s) && OneRuns(s.tasks, s.current)
    ensures var r := EndTick(s, woke);
            SameEff(s, r) && r == s.(tasks := r.tasks, lists := r.lists, bitmap := r.bitmap, current := r.current)
  {
    if (s.current == None && ReadyHighest(s) >= 0) || woke {
      ScheduleFrame(s, false);
    } else if s.current.Some? && s.tasks[s.current.value].slice == 0 {
      ScheduleFrame(s, true);
      RefreshFrame(s, Schedule(s, true), s.current.value);
    }
  }

  lemma RefreshFrame(s: State, r: State, c: TaskId)
    requires SameEff(s, r) && r == s.(tasks := r.tasks, lists := r.lists, bitmap := r.bitmap, current := r.current)
    ensures var r1 := SetTask(r, c, r.tasks[c].(slice := TIME_SLICE_TICKS));
            SameEff(s, r1)
              && r1 == s.(tasks := r1.tasks, lists := r1.lists, bitmap := r1.bitmap, current := r1.current)
  {
  }

  lemma ScheduleFrame(s: State, rotate: bool)
    requires Settled(s) && OneRuns(s.tasks, s.current)
    ensures var r := Schedule(s, rotate);
            SameEff(s, r) && r == s.(tasks := r.tasks, lists := r.lists, bitmap := r.bitmap, current := r.current)
  {
    ScheduleKeeps(s, rotate);
  }

  lemma TickFlags(s: State)
    requires Inv(s)
    ensures TimeTick(s).started == s.started && TimeTick(s).pending == s.pending
  {
    AdvanceKeeps(s);
    ExpireLoopKeeps(AdvanceClock(s), false);
    var (s1, woke) := ExpireLoop(AdvanceClock(s), false);
    NoneLeftBehind(s1);
    SpendKeeps(s1, woke);
    EndTickFrame(SpendSlice(s1), woke);
  }

  ghost predicate IsTick(s: State, r: State) {
    r == TimeTick(s)
  }

  /** A run that consists of ticks only. */
  ghost predicate TickRun(states: seq<State>) {
    |states| > 0 && forall i :: 0 <= i < |states| - 1 ==> IsTick(states[i], states[i + 1])
  }

  /** t keeps priority p while it is ready, and nobody above p can run. */
  ghost predicate Undisturbed(s: State, t: TaskId, p: nat) {
    s.tasks[t].eff == p && NoneAbove(s, p)
  }

  ghost predicate InLine(s: State, t: TaskId) {
    Inv(s) && s.started && !s.pending && s.tasks[t].state == Ready && s.current.Some? && Queued(s, t)
  }

  lemma OneTickCloser(s: State, r: State, t: TaskId, p: nat)
    requires InLine(s, t) && IsTick(s, r) && Undisturbed(s, t, p) && Undisturbed(r, t, p)
    ensures r.current == Some(t) || (InLine(r, t) && Rank(r, t) < Rank(s, t) && Ahead(r, t) <= Ahead(s, t))
  {
    TickStep(s);
    TickFlags(s);
    TickAdvances(s, t, r);
    if r.current != Some(t) {
      assert SliceInRange(s) && SliceInRange(r);
      RankBoundsPlace(Ahead(s, t), s.tasks[s.current.value].slice, Ahead(r, t), r.tasks[r.current.value].slice);
    }
  }

  /** With slices in range, a smaller rank means no later place. */
  lemma RankBoundsPlace(a: nat, n: nat, b: nat, m: nat)
    requires n <= TIME_SLICE_TICKS && m >= 1 && b * TIME_SLICE_TICKS + m < a * TIME_SLICE_TICKS + n
    ensures b <= a
  {
  }

  lemma {:induction false} RunsWithin(states: seq<State>, t: TaskId, p: nat) returns (k: nat)
    requires TickRun(states) && InLine(states[0], t) && Rank(states[0], t) < |states|
    requires forall i :: 0 <= i < |states| ==> Undisturbed(states[i], t, p)
    ensures 0 < k <= Rank(states[0], t) && k < |states| && states[k].current == Some(t)
    decreases |states|
  {
    FirstTickCloser(states, t, p);
    if states[1].current == Some(t) {
      k := 1;
    } else {
      RestIsTickRun(states);
      assert forall i :: 0 <= i < |states[1..]| ==> states[1..][i] == states[i + 1];
      var j := RunsWithin(states[1..], t, p);
      k := j + 1;
    }
  }

  lemma FirstTickCloser(states: seq<State>, t: TaskId, p: nat)
    requires TickRun(states) && InLine(states[0], t) && Rank(states[0], t) < |states|
    requires forall i :: 0 <= i < |states| ==> Undisturbed(states[i], t, p)
    ensures |states| > 1 && Rank(states[0], t) > 0
    ensures states[1].current == Some(t) || (InLine(states[1], t) && Rank(states[1], t) < Rank(states[0], t))
  {
    RankIsPositive(states[0], t);
    assert IsTick(states[0], states[1]);
    OneTickCloser(states[0], states[1], t, p);
  }

  lemma RankIsPositive(s: State, t: TaskId)
    requires InLine(s, t)
    ensures Rank(s, t) > 0
  {
    assert SliceInRange(s);
  }

  lemma RestIsTickRun(states: seq<State>)
    requires TickRun(states) && |states| > 1
    ensures TickRun(states[1..])
  {
    forall i | 0 <= i < |states| - 2 ensures IsTick(states[1..][i], states[1..][i + 1]) {
      assert IsTick(states[i + 1], states[i + 2]);
    }
  }

  /** A ready task with i tasks of its priority ahead of it runs within (i + 1) full time
      slices, if it keeps its priority and no higher task becomes able to run. */
  lemma RoundRobinBound(states: seq<State>, t: TaskId, p: nat) returns (k: nat)
    requires TickRun(states) && Reachable(states[0]) && states[0].started && !states[0].pending
             && states[0].tasks[t].state == Ready
    requires Queued(states[0], t) && |states| > (Ahead(states[0], t) + 1) * TIME_SLICE_TICKS
    requires forall i :: 0 <= i < |states| ==> Undisturbed(states[i], t, p)
    ensures 0 < k <= (Ahead(states[0], t) + 1) * TIME_SLICE_TICKS && k < |states| && states[k].current == Some(t)
  {
    ReachableInv(states[0]);
    assert states[0].current.Some? && SliceInRange(states[0]);
    k := RunsWithin(states, t, p);
  }
}
