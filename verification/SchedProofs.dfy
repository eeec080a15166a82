/** The switch decision always ends with a highest-priority task running.
    It changes nothing else: no priority, no waiting list, no delay list, no kernel object
    (Quiet). */
module SchedProofs {
  import opened Wrappers
  import opened ReadyBitmap
  import opened KernelState
  import opened Sched
  import opened Placement
  import opened Invariants

  ghost predicate NoneRuns(tasks: TaskPool) {
    forall t: TaskId :: tasks[t].state != Running
  }

  /** Picking the next task restores everything the scheduler promises. */
  lemma PickNextKeeps(s: State)
    requires Containers(s, {}) && NoneRuns(s.tasks)
    ensures var r := PickNext(s);
            && Containers(r, {}) && OneRuns(r.tasks, r.current) && Highest(r) && SliceInRange(r)
            && Quiet(s, r) && SameEff(s, r)
            && r == s.(tasks := r.tasks, lists := r.lists, bitmap := r.bitmap, current := r.current)
  {
    PopHighestKeeps(s);
    PopHighestTakes(s);
    var (s1, next) := PopHighest(s);
    PopHighestWaiters(s);
    if next.Some? {
      var t := next.value;
      RetaskKeeps(s1, t, s.tasks[t].(state := Running, slice := TIME_SLICE_TICKS), {t});
      assert {t} - {t} == {};
    }
  }

  lemma PopHighestWaiters(s: State)
    ensures SameWaiters(s, PopHighest(s).0)
  {
  }

  lemma RequeueKeeps(s: State, c: TaskId)
    requires Containers(s, {}) && OneRuns(s.tasks, Some(c))
    ensures var r := Requeue(s, c);
            && Containers(r, {}) && NoneRuns(r.tasks) && Quiet(s, r) && SameEff(s, r)
            && r.tasks == s.tasks[c := s.tasks[c].(state := Ready)]
            && r == s.(tasks := r.tasks, lists := r.lists, bitmap := r.bitmap)
            && At(r.lists, ReadyList(s.tasks[c].eff)) == At(s.lists, ReadyList(s.tasks[c].eff)) + [c]
            && forall p: Priority :: p != s.tasks[c].eff ==> At(r.lists, ReadyList(p)) == At(s.lists, ReadyList(p))
  {
    HomelessIsFree(s, c, {});
    var s1 := SetTask(s, c, s.tasks[c].(state := Ready));
    RetaskKeeps(s, c, s.tasks[c].(state := Ready), {c});
    EnqueueKeeps(s1, c, {c});
    assert {} + {c} == {c} && {c} - {c} == {};
  }

  /** Whether or not it switches, the scheduler leaves a highest-priority task running. */
  lemma ScheduleKeeps(s: State, rotate: bool)
    requires Containers(s, {}) && OneRuns(s.tasks, s.current)
    ensures var r := Schedule(s, rotate);
            && Containers(r, {}) && OneRuns(r.tasks, r.current) && TopRuns(r) && (r == s || SliceInRange(r))
            && Quiet(s, r) && SameEff(s, r)
            && r == s.(tasks := r.tasks, lists := r.lists, bitmap := r.bitmap, current := r.current)
  {
    if s.started {
      if CurrentRuns(s) {
        var c := s.current.value;
        ReadyHighestIsHighest(s);
        var h := ReadyHighest(s);
        if h > s.tasks[c].eff || (rotate && h == s.tasks[c].eff) {
          SwitchKeeps(s, c);
        }
      } else {
        PickNextKeeps(s);
      }
    }
  }

  lemma SwitchKeeps(s: State, c: TaskId)
    requires Containers(s, {}) && OneRuns(s.tasks, Some(c))
    ensures var r := PickNext(Requeue(s, c));
            && Containers(r, {}) && OneRuns(r.tasks, r.current) && Highest(r) && SliceInRange(r)
            && Quiet(s, r) && SameEff(s, r)
            && r == s.(tasks := r.tasks, lists := r.lists, bitmap := r.bitmap, current := r.current)
  {
    RequeueKeeps(s, c);
    PickNextKeeps(Requeue(s, c));
    QuietTrans(s, Requeue(s, c), PickNext(Requeue(s, c)));
  }
}
