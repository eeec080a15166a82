/** The two 32-bit delay lists behave like one list in unbounded time. */
module DelayLists {
  import opened Wrappers
  import opened KernelState
  import opened TaskLists
  import opened Sched
  import opened Time

  ghost predicate DelayPlaced(tasks: TaskPool, delayed: DelayPair) {
    forall d: DelayIndex, t: TaskId {:trigger t in delayed[d]} :: t in delayed[d] <==> tasks[t].delayList == Some(d)
  }

  ghost predicate DelayDistinct(delayed: DelayPair) {
    NoDuplicates(delayed[0]) && NoDuplicates(delayed[1])
  }

  ghost predicate DelayOrdered(tasks: TaskPool, delayed: DelayPair) {
    ByWakeTick(tasks, delayed[0]) && ByWakeTick(tasks, delayed[1])
  }

  /** The number of ticks until the task is due, in 32-bit arithmetic. */
  function Remaining(s: State, t: TaskId): nat {
    (s.tasks[t].wakeTick - s.tick) % TICK_MODULUS
  }

  /** The task is due within the longest delay, in the current epoch if and only if it is
      in the current list.  While a tick is being processed it may be due right now. */
  predicate OnTime(task: Task, px: DelayIndex, tick: Tick, due: bool) {
    task.delayList.Some? ==>
      if task.delayList.value == px
      then (task.wakeTick > tick || (due && task.wakeTick == tick)) && task.wakeTick - tick <= MAX_DELAY_TICKS
      else task.wakeTick < tick && task.wakeTick + TICK_MODULUS - tick <= MAX_DELAY_TICKS
  }

  ghost predicate AllOnTime(tasks: TaskPool, px: DelayIndex, tick: Tick, due: bool) {
    forall t: TaskId :: OnTime(tasks[t], px, tick, due)
  }

  ghost predicate Delays(s: State, due: bool) {
    && DelayPlaced(s.tasks, s.delayed)
    && DelayDistinct(s.delayed)
    && DelayOrdered(s.tasks, s.delayed)
    && AllOnTime(s.tasks, s.px, s.tick, due)
  }

  lemma SameDelaysKeep(s: State, r: State, due: bool)
    requires Delays(s, due) && r.delayed == s.delayed && r.px == s.px && r.tick == s.tick
    requires forall t: TaskId :: r.tasks[t].wakeTick == s.tasks[t].wakeTick
               && r.tasks[t].delayList == s.tasks[t].delayList
    ensures Delays(r, due)
  {
    assert ByWakeTick(r.tasks, r.delayed[0]) && ByWakeTick(r.tasks, r.delayed[1]);
  }

  lemma RemainingInRange(s: State, t: TaskId)
    requires Delays(s, false) && s.tasks[t].delayList.Some?
    ensures 1 <= Remaining(s, t) <= MAX_DELAY_TICKS
  {
    assert OnTime(s.tasks[t], s.px, s.tick, false);
  }

  // ----- Insertion and removal

  lemma DelayPlacedUpdate(tasks: TaskPool, delayed: DelayPair, t: TaskId, task: Task, d: DelayIndex, q: seq<TaskId>)
    requires DelayPlaced(tasks, delayed)
    requires forall u: TaskId :: u in q <==> if u == t then task.delayList == Some(d) else u in delayed[d]
    requires tasks[t].delayList == None || tasks[t].delayList == Some(d)
    requires task.delayList == None || task.delayList == Some(d)
    ensures DelayPlaced(tasks[t := task], delayed[d := q])
  {
  }

  lemma DelayRemoveKeeps(s: State, t: TaskId, due: bool)
    requires Delays(s, due)
    ensures Delays(DelayRemove(s, t), due)
    ensures DelayRemove(s, t).tasks == s.tasks[t := s.tasks[t].(delayList := None)]
  {
    var task := s.tasks[t].(delayList := None);
    if s.tasks[t].delayList.Some? {
      var d := s.tasks[t].delayList.value;
      assert t in s.delayed[d];
      var q := Without(s.delayed[d], t);
      WithoutMembers(s.delayed[d], t);
      WithoutByWakeTick(s.tasks, s.delayed[d], t);
      DelayPlacedUpdate(s.tasks, s.delayed, t, task, d, q);
      ByWakeTickRetask(s.tasks, q, t, task);
      assert t !in s.delayed[1 - d];
      ByWakeTickRetask(s.tasks, s.delayed[1 - d], t, task);
    } else {
      assert s.tasks[t := task] == s.tasks;
    }
  }

  lemma ByWakeTickRetask(tasks: TaskPool, q: seq<TaskId>, t: TaskId, task: Task)
    requires ByWakeTick(tasks, q) && (t !in q || task.wakeTick == tasks[t].wakeTick)
    ensures ByWakeTick(tasks[t := task], q)
  {
    forall i | 0 <= i < |q| ensures tasks[t := task][q[i]].wakeTick == tasks[q[i]].wakeTick {
      if q[i] == t { assert t in q; }
    }
  }

  lemma DelayLinkKeeps(s: State, t: TaskId, target: Tick, d: DelayIndex)
    requires DelayPlaced(s.tasks, s.delayed) && DelayDistinct(s.delayed) && DelayOrdered(s.tasks, s.delayed)
    requires s.tasks[t].delayList == None
    ensures var q := s.delayed[d];
            var tasks := s.tasks[t := s.tasks[t].(wakeTick := target, delayList := Some(d))];
            var delayed := s.delayed[d := InsertAt(q, WakePos(s.tasks, q, target), t)];
            DelayPlaced(tasks, delayed) && DelayDistinct(delayed) && DelayOrdered(tasks, delayed)
  {
    var q := s.delayed[d];
    var task := s.tasks[t].(wakeTick := target, delayList := Some(d));
    var tasks := s.tasks[t := task];
    assert t !in q && t !in s.delayed[1 - d];
    var i := WakePos(s.tasks, q, target);
    SameWakePos(s.tasks, tasks, q, target, t);
    InsertMembers(q, i, t);
    ByWakeTickRetask(s.tasks, q, t, task);
    ByWakeTickRetask(s.tasks, s.delayed[1 - d], t, task);
    InsertByWakeTick(tasks, q, t);
    DelayPlacedUpdate(s.tasks, s.delayed, t, task, d, InsertAt(q, i, t));
  }

  function WakeTarget(s: State, n: nat): Tick {
    (s.tick + n) % TICK_MODULUS
  }

  /** Inserting with a delay between 1 and the maximum picks the right list and place. */
  lemma DelayInsertKeeps(s: State, t: TaskId, n: nat)
    requires Delays(s, false) && s.tasks[t].delayList == None && 1 <= n <= MAX_DELAY_TICKS
    ensures var r := DelayInsert(s, t, WakeTarget(s, n));
            && Delays(r, false)
            && r.tasks[t].delayList.Some?
            && r.tasks == s.tasks[t := s.tasks[t].(wakeTick := WakeTarget(s, n), delayList := r.tasks[t].delayList)]
            && Remaining(r, t) == n
  {
    var target := WakeTarget(s, n);
    assert target == if s.tick + n < TICK_MODULUS then s.tick + n else s.tick + n - TICK_MODULUS;
    var d: DelayIndex := if target < s.tick then 1 - s.px else s.px;
    DelayLinkKeeps(s, t, target, d);
    var r := DelayInsert(s, t, target);
    assert OnTime(r.tasks[t], s.px, s.tick, false);
    assert AllOnTime(r.tasks, s.px, s.tick, false) by {
      forall u: TaskId ensures OnTime(r.tasks[u], s.px, s.tick, false) {
        assert OnTime(s.tasks[u], s.px, s.tick, false);
      }
    }
  }

  lemma {:induction false} SameWakePos(tasks: TaskPool, tasks': TaskPool, q: seq<TaskId>, target: nat, t: TaskId)
    requires t !in q && forall u: TaskId :: u != t ==> tasks'[u] == tasks[u]
    ensures WakePos(tasks, q, target) == WakePos(tasks', q, target)
  {
    if q != [] {
      assert q[0] in q;
      SameWakePos(tasks, tasks', q[1..], target, t);
    }
  }

  // ----- The clock

  /** When the tick wraps the current list is empty, so swapping the lists loses nothing. */
  lemma CurrentListEmptyAtWrap(s: State)
    requires Delays(s, false) && s.tick == TICK_MODULUS - 1
    ensures s.delayed[s.px] == []
  {
    if s.delayed[s.px] != [] {
      HeadIsLater(s);
    }
  }

  lemma HeadIsLater(s: State)
    requires Delays(s, false) && s.delayed[s.px] != []
    ensures s.tasks[s.delayed[s.px][0]].wakeTick > s.tick
  {
    var t := s.delayed[s.px][0];
    assert t in s.delayed[s.px];
    assert OnTime(s.tasks[t], s.px, s.tick, false);
  }

  lemma AdvanceClockKeeps(s: State)
    requires Delays(s, false)
    ensures Delays(AdvanceClock(s), true)
    ensures forall t: TaskId :: s.tasks[t].delayList.Some? ==> Remaining(AdvanceClock(s), t) == Remaining(s, t) - 1
  {
    var r := AdvanceClock(s);
    forall t: TaskId
      ensures OnTime(r.tasks[t], r.px, r.tick, true)
      ensures s.tasks[t].delayList.Some? ==> Remaining(r, t) == Remaining(s, t) - 1
    {
      assert OnTime(s.tasks[t], s.px, s.tick, false);
    }
  }

  /** 32-bit comparison agrees with real time: the head is due exactly when its tick has come. */
  lemma HeadIsDueExactly(s: State)
    requires Delays(s, true) && s.delayed[s.px] != []
    ensures HeadIsDue(s) <==> s.tasks[s.delayed[s.px][0]].wakeTick == s.tick
    ensures s.tasks[s.delayed[s.px][0]].delayList == Some(s.px)
  {
    var t := s.delayed[s.px][0];
    assert t in s.delayed[s.px];
    assert OnTime(s.tasks[t], s.px, s.tick, true);
  }

  /** Stopping at the first head that is not due leaves no expired task behind. */
  lemma NoneLeftBehind(s: State)
    requires Delays(s, true) && !HeadIsDue(s)
    ensures Delays(s, false)
  {
    forall t: TaskId ensures OnTime(s.tasks[t], s.px, s.tick, false) {
      assert OnTime(s.tasks[t], s.px, s.tick, true);
      if s.tasks[t].delayList == Some(s.px) {
        SleeperBehindHead(s, t);
      }
    }
  }

  lemma SleeperBehindHead(s: State, t: TaskId)
    requires Delays(s, true) && s.tasks[t].delayList == Some(s.px)
    ensures s.delayed[s.px] != [] && s.tasks[s.delayed[s.px][0]].wakeTick <= s.tasks[t].wakeTick
    ensures HeadIsDue(s) <==> s.tasks[s.delayed[s.px][0]].wakeTick == s.tick
    ensures s.tasks[s.delayed[s.px][0]].wakeTick >= s.tick
  {
    assert t in s.delayed[s.px];
    HeadIsDueExactly(s);
    assert OnTime(s.tasks[s.delayed[s.px][0]], s.px, s.tick, true);
    assert ByWakeTick(s.tasks, s.delayed[s.px]);
  }

  lemma PopDelayedKeeps(s: State)
    requires Delays(s, true) && s.delayed[s.px] != []
    ensures Delays(PopDelayed(s), true)
  {
    var q := s.delayed[s.px];
    var t := q[0];
    var task := s.tasks[t].(delayList := None);
    assert q == [t] + q[1..];
    assert t in q;
    assert t !in s.delayed[1 - s.px];
    DelayPlacedUpdate(s.tasks, s.delayed, t, task, s.px, q[1..]);
    ByWakeTickRetask(s.tasks, q[1..], t, task);
    ByWakeTickRetask(s.tasks, s.delayed[1 - s.px], t, task);
  }
}
