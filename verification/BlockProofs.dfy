/** Going to sleep and waking up keep lists, delay lists and TCBs together.
    A task on its way between two lists is in neither; the set of such tasks is the second
    argument of Containers. */
module BlockProofs {
  import opened Wrappers
  import opened KernelState
  import opened Sched
  import opened Time
  import opened Placement
  import opened DelayLists
  import opened Invariants
  import opened SchedProofs

  // ----- Going to sleep

  /** The TCB of a task that waits on list l. */
  function Parked(s: State, c: TaskId, l: WaitId, cell: Message, n: Tick, d: Option<DelayIndex>): Task {
    s.tasks[c].(wait := Some(l), cell := cell, deadline := Deadline(s, n), result := BadState, state := BlockedObject,
                delayList := d, wakeTick := if n == WAIT_FOREVER then s.tasks[c].wakeTick else Deadline(s, n))
  }

  lemma ParkListKeeps(s: State, c: TaskId, l: WaitId, task: Task)
    requires Containers(s, {}) && s.tasks[c].state == Running
    requires task.state == BlockedObject && task.wait == Some(l)
    ensures var r := WaitInsert(SetTask(s, c, task), l, c);
            && Containers(r, {})
            && forall k: WaitId, u: TaskId :: u in At(r.lists, WaitList(k))
                 <==> u in At(s.lists, WaitList(k)) || (k == l && u == c)
  {
    HomelessIsFree(s, c, {});
    RetaskKeeps(s, c, task, {c});
    WaitInsertKeeps(SetTask(s, c, task), c, l, {c});
    assert {} + {c} == {c} && {c} - {c} == {};
  }

  /** Linking a task into a delay list leaves all other containers alone. */
  lemma DelayLinked(s: State, t: TaskId, n: nat)
    requires Containers(s, {}) && Delays(s, false) && s.tasks[t].delayList == None && 1 <= n <= MAX_DELAY_TICKS
    ensures var r := DelayInsert(s, t, WakeTarget(s, n));
            && Containers(r, {}) && Delays(r, false) && Remaining(r, t) == n
            && r == s.(tasks := r.tasks, delayed := r.delayed)
            && r.tasks[t].delayList.Some?
            && r.tasks == s.tasks[t := s.tasks[t].(wakeTick := WakeTarget(s, n), delayList := r.tasks[t].delayList)]
  {
    DelayInsertKeeps(s, t, n);
    var r := DelayInsert(s, t, WakeTarget(s, n));
    forall u: TaskId ensures r.tasks[u].eff == s.tasks[u].eff && Home(r.tasks[u]) == Home(s.tasks[u]) {
    }
    SameHomesKeep(s, r, {});
  }

  lemma ParkKeeps(s: State, c: TaskId, l: WaitId, cell: Message, n: Tick)
    requires Structure(s, {}) && OneRuns(s.tasks, Some(c))
    requires n == WAIT_FOREVER || 1 <= n <= MAX_DELAY_TICKS
    ensures var r := Park(s, c, l, cell, n);
            && Containers(r, {}) && Delays(r, false)
            && r.tasks == s.tasks[c := Parked(s, c, l, cell, n, r.tasks[c].delayList)]
            && (r.tasks[c].delayList.Some? <==> n != WAIT_FOREVER)
            && (n != WAIT_FOREVER ==> Remaining(r, c) == n)
            && r == s.(tasks := r.tasks, lists := r.lists, delayed := r.delayed)
            && forall k: WaitId, u: TaskId :: u in At(r.lists, WaitList(k))
                 <==> u in At(s.lists, WaitList(k)) || (k == l && u == c)
  {
    assert Coherent(s.tasks[c]);
    var task := s.tasks[c].(wait := Some(l), cell := cell, deadline := Deadline(s, n), result := BadState,
      state := BlockedObject);
    var s2 := WaitInsert(SetTask(s, c, task), l, c);
    ParkListKeeps(s, c, l, task);
    SameDelaysKeep(s, s2, false);
    ParkUnfolds(s, s2, c, l, cell, n);
    if n != WAIT_FOREVER {
      DelayLinked(s2, c, n);
    }
  }

  lemma ParkUnfolds(s: State, s2: State, c: TaskId, l: WaitId, cell: Message, n: Tick)
    requires s.tasks[c].delayList == None
    requires s2 == WaitInsert(SetTask(s, c, s.tasks[c].(wait := Some(l), cell := cell, deadline := Deadline(s, n),
                                                        result := BadState, state := BlockedObject)), l, c)
    ensures Park(s, c, l, cell, n) == if n == WAIT_FOREVER then s2 else DelayInsert(s2, c, WakeTarget(s2, n))
  {
    assert s2.tasks[c := s2.tasks[c].(delayList := None)] == s2.tasks;
  }

  lemma SleepKeeps(s: State, c: TaskId, n: Tick)
    requires Structure(s, {}) && OneRuns(s.tasks, Some(c)) && 1 <= n <= MAX_DELAY_TICKS
    ensures var r := Sleep(s, c, n);
            && Containers(r, {}) && Delays(r, false)
            && r.tasks[c].delayList.Some? && Remaining(r, c) == n
            && r.tasks ==
               s.tasks[c := s.tasks[c].(state := BlockedDelay, delayList := r.tasks[c].delayList,
               wakeTick := r.tasks[c].wakeTick)]
            && r == s.(tasks := r.tasks, delayed := r.delayed)
  {
    assert Coherent(s.tasks[c]);
    var s1 := SetTask(s, c, s.tasks[c].(state := BlockedDelay));
    OffTheLists(s, c, s1);
    assert Sleep(s, c, n) == DelayInsert(s1, c, WakeTarget(s1, n)) by { SleepUnfolds(s, s1, c, n); }
    DelayLinked(s1, c, n);
  }

  /** The running task is in no list, so it may go to sleep. */
  lemma OffTheLists(s: State, c: TaskId, s1: State)
    requires Containers(s, {}) && Delays(s, false) && Home(s.tasks[c]) == None
    requires s1 == SetTask(s, c, s.tasks[c].(state := BlockedDelay))
    ensures Containers(s1, {}) && Delays(s1, false)
  {
    HomelessIsFree(s, c, {});
    RetaskKeeps(s, c, s1.tasks[c], {c});
    assert {} + {c} == {c} && {c} - {c} == {};
    SameDelaysKeep(s, s1, false);
  }

  lemma SleepUnfolds(s: State, s1: State, c: TaskId, n: Tick)
    requires s1 == SetTask(s, c, s.tasks[c].(state := BlockedDelay))
    ensures Sleep(s, c, n) == DelayInsert(s1, c, WakeTarget(s1, n))
  {
  }

  lemma SleepCoherent(s: State, c: TaskId, n: Tick)
    requires Structure(s, {}) && OneRuns(s.tasks, Some(c)) && 1 <= n <= MAX_DELAY_TICKS
    ensures AllCoherent(Sleep(s, c, n).tasks) && NoneRuns(Sleep(s, c, n).tasks)
  {
    SleepKeeps(s, c, n);
    var r := Sleep(s, c, n);
    forall t: TaskId ensures Coherent(r.tasks[t]) {
      assert Coherent(s.tasks[t]);
    }
  }

  lemma ParkCoherent(s: State, c: TaskId, l: WaitId, cell: Message, n: Tick)
    requires Structure(s, {}) && OneRuns(s.tasks, Some(c))
    requires n == WAIT_FOREVER || 1 <= n <= MAX_DELAY_TICKS
    ensures AllCoherent(Park(s, c, l, cell, n).tasks) && NoneRuns(Park(s, c, l, cell, n).tasks)
  {
    ParkKeeps(s, c, l, cell, n);
    var r := Park(s, c, l, cell, n);
    forall t: TaskId ensures Coherent(r.tasks[t]) {
      assert Coherent(s.tasks[t]);
    }
  }

  // ----- Waking up

  /** A task taken off its waiting list becomes ready and leaves the delay lists too. */
  lemma MakeReadyKeeps(s: State, t: TaskId, result: Status, x: set<TaskId>, due: bool)
    requires Containers(s, x) && t in x && s.tasks[t].state == BlockedObject && Delays(s, due)
    ensures var r := MakeReady(s, t, result);
            && Containers(r, x - {t}) && Delays(r, due) && SameWaiters(s, r)
            && (forall k: WaitId :: At(r.lists, WaitList(k)) == At(s.lists, WaitList(k)))
            && r.tasks == s.tasks[t := Woken(s.tasks[t], result).(delayList := None)]
  {
    var s1 := DelayRemove(s, t);
    DelayRemoveKeeps(s, t, due);
    RetaskKeeps(s, t, s1.tasks[t], x);
    assert s1.lists == s.lists && s1.bitmap == s.bitmap;
    assert Containers(s1, x);
    var task := Woken(s1.tasks[t], result);
    var s2 := SetTask(s1, t, task);
    RetaskKeeps(s1, t, task, x);
    SameDelaysKeep(s1, s2, due);
    EnqueueKeeps(s2, t, x);
    var r := MakeReady(s, t, result);
    assert r == ReadyEnqueue(s2, t);
    SameDelaysKeep(s2, r, due);
  }
}
