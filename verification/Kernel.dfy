/** The kernel as the C code has it: one object whose methods update its fields in place. */
module KernelObject {
  import opened Wrappers
  import opened ReadyBitmap
  import BitmapWord
  import opened KernelState
  import opened TaskLists
  import opened Inheritance
  import opened Placement
  import opened DelayLists
  import opened Invariants
  import opened InheritProofs
  import opened SchedProofs
  import opened BlockProofs
  import opened StepProofs
  import opened QueueRing
  import opened ObjectProofs
  import opened MutexProofs
  import opened TickProofs
  import opened Machine
  import S = Sched
  import O = KernelObjects
  import T = Time
  import U = Setup

  /** Each task linked in the list of a mutex waits for that mutex, owners may inherit,
      and unused TCBs have base priority 0. */
  ghost predicate ReadyToRecompute(s: State) {
    && OwnersAreUsers(s) && s.taskCount <= MAX_TASKS
    && (forall t: TaskId :: t >= s.taskCount ==> IsIdle(s.tasks[t]))
    && (forall m: MutexId, t: TaskId :: t in At(s.lists, WaitList(MutexList(m)))
          ==> s.tasks[t].wait == Some(MutexList(m)))
  }

  lemma RecomputeReady(s: State)
    requires Containers(s, {}) && AllCoherent(s.tasks) && Objects(s) && PoolFits(s)
    ensures ReadyToRecompute(s)
  {
    ObjectsHaveUsers(s);
    forall t: TaskId | t >= s.taskCount ensures IsIdle(s.tasks[t]) { assert Coherent(s.tasks[t]); }
  }

  lemma TimedOutReady(s: State, t: TaskId)
    requires Ticking(s) && T.HeadIsDue(s) && t == s.delayed[s.px][0] && s.tasks[t].state == BlockedObject
    ensures ReadyToRecompute(TimedOut(s, t))
  {
    TimedOutKeeps(s, t);
    TimedOutObjects(s, t, TimedOut(s, t));
    RecomputeReady(TimedOut(s, t));
  }

  /** Priorities can be recomputed after any task, Idle included, went to sleep. */
  lemma ParkedReady(s: State, l: WaitId, cell: Message, timeout: Tick)
    requires Inv(s) && s.current.Some? && timeout != 0
    ensures ReadyToRecompute(S.WaitBlock(s, l, cell, timeout))
  {
    var c, n := s.current.value, S.ClampTimeout(timeout);
    var s1 := S.Park(s, c, l, cell, n);
    assert S.WaitBlock(s, l, cell, timeout) == S.PickNext(s1) by { WaitBlockUnfolds(s, l, cell, timeout); }
    assert ReadyToRecompute(s) by { RecomputeReady(s); }
    SwitchReady(s, c, l, cell, n);
  }

  lemma SwitchReady(s: State, c: TaskId, l: WaitId, cell: Message, n: Tick)
    requires Structure(s, {}) && OneRuns(s.tasks, Some(c)) && ReadyToRecompute(s)
    requires n == WAIT_FOREVER || 1 <= n <= MAX_DELAY_TICKS
    ensures ReadyToRecompute(S.PickNext(S.Park(s, c, l, cell, n)))
  {
    var s1 := S.Park(s, c, l, cell, n);
    assert NoneRuns(s1.tasks) by { ParkCoherent(s, c, l, cell, n); }
    ParkKeeps(s, c, l, cell, n);
    SwitchedStill(s, c, l, s1, S.PickNext(s1));
  }

  lemma SwitchedStill(s: State, c: TaskId, l: WaitId, s1: State, r: State)
    requires ReadyToRecompute(s) && s.mutexes == s1.mutexes && s1.taskCount == s.taskCount
    requires Containers(s1, {}) && NoneRuns(s1.tasks) && r == S.PickNext(s1)
    requires s1.tasks[c].wait == Some(l) && s1.tasks[c].base == s.tasks[c].base
             && forall u: TaskId :: u != c ==> s1.tasks[u] == s.tasks[u]
    requires forall k: WaitId, u: TaskId :: u in At(s1.lists, WaitList(k))
               <==> u in At(s.lists, WaitList(k)) || (k == l && u == c)
    requires forall k: WaitId :: c !in At(s.lists, WaitList(k))
    ensures ReadyToRecompute(r)
  {
    PickNextKeeps(s1);
    ParkedStill(s, c, l, s1, r);
  }

  lemma ParkedStill(s: State, c: TaskId, l: WaitId, s1: State, r: State)
    requires ReadyToRecompute(s) && s.mutexes == s1.mutexes && s1.taskCount == s.taskCount && Quiet(s1, r)
    requires s1.tasks[c].wait == Some(l) && s1.tasks[c].base == s.tasks[c].base
             && forall u: TaskId :: u != c ==> s1.tasks[u] == s.tasks[u]
    requires forall k: WaitId, u: TaskId :: u in At(s1.lists, WaitList(k))
               <==> u in At(s.lists, WaitList(k)) || (k == l && u == c)
    requires forall k: WaitId :: c !in At(s.lists, WaitList(k))
    ensures ReadyToRecompute(r)
  {
    forall u: TaskId ensures r.tasks[u].base == s1.tasks[u].base && r.tasks[u].wait == s1.tasks[u].wait {
      assert SameJob(s1.tasks[u], r.tasks[u]);
    }
  }

  lemma PassedReady(s: State, m: MutexId)
    requires Inv(s) && s.current.Some? && s.mutexes[m].used && s.mutexes[m].owner == s.current
    ensures ReadyToRecompute(O.SetResult(O.PassOn(s, m).0, s.current.value, Status.Ok))
  {
    var r := O.SetResult(O.PassOn(s, m).0, s.current.value, Status.Ok);
    RecomputeReady(s);
    WaitPopKeeps(s, MutexList(m), {});
    WaitPopTakes(s, MutexList(m), {});
    var w := O.PassOn(s, m).1;
    if w.Some? { assert WaitFits(s, w.value); }
  }

  ghost predicate InBounds(g: Graph, d: seq<nat>) {
    |d| == |g.base| == MAX_TASKS && forall t: TaskId :: g.base[t] <= d[t] <= Inherited(g)[t]
  }

  ghost predicate Grew(d: seq<nat>, d': seq<nat>) {
    |d| == |d'| == MAX_TASKS && forall t: TaskId :: d[t] <= d'[t]
  }

  lemma BoundAt(g: Graph, d: seq<nat>, t: TaskId)
    requires InBounds(g, d)
    ensures g.base[t] <= d[t] <= Inherited(g)[t]
  {
  }

  lemma BoundsEverywhere(g: Graph, d: seq<nat>)
    requires InBounds(g, d)
    ensures forall t :: 0 <= t < |d| ==> g.base[t] <= d[t] <= Inherited(g)[t]
  {
    forall t | 0 <= t < |d| ensures g.base[t] <= d[t] <= Inherited(g)[t] {
      BoundAt(g, d, t);
    }
  }

  lemma BaseInBounds(g: Graph)
    requires WellFormed(g) && |g.base| == MAX_TASKS
    ensures InBounds(g, g.base)
  {
    InheritedIsClosed(g);
  }

  /** The owner of mutex m wants at least what its waiters wanted before the pass. */
  ghost predicate Covered(s: State, d: seq<nat>, d': seq<nat>, m: MutexId)
    requires |d| == |d'| == MAX_TASKS
  {
    s.mutexes[m].used && s.mutexes[m].owner.Some? ==>
      forall w: TaskId :: w in At(s.lists, WaitList(MutexList(m))) ==> d[w] <= d'[s.mutexes[m].owner.value]
  }

  lemma OwnerMayInherit(s: State, d: seq<nat>, m: MutexId, o: TaskId, v: nat)
    requires ReadyToRecompute(s) && InBounds(O.GraphOf(s), d) && s.mutexes[m].used && s.mutexes[m].owner == Some(o)
    requires v >= d[o] && forall w: TaskId :: w in At(s.lists, WaitList(MutexList(m))) ==> d[w] <= v
    requires v == d[o] || exists w: TaskId :: w in At(s.lists, WaitList(MutexList(m))) && v == d[w]
    ensures InBounds(O.GraphOf(s), d[o := v]) && Grew(d, d[o := v]) && Covered(s, d, d[o := v], m)
  {
    BoundAt(O.GraphOf(s), d, o);
    if v != d[o] {
      var w: TaskId :| w in At(s.lists, WaitList(MutexList(m))) && v == d[w];
      WaiterBelowOwner(s, m, w);
      BoundAt(O.GraphOf(s), d, w);
    }
  }

  lemma RefillSteps(s: State, i: QueueId, s1: State, s2: State, w: TaskId, r: State)
    requires S.CurrentRuns(s) && O.QueueIsValid(s, Some(i)) && s.queues[i].count > 0
    requires var q := s.queues[i]; s1 == O.SetQueue(O.SetCell(s, s.current.value, q.buffer[q.head]), i, O.RingDrop(q))
    requires s2 == S.WaitPop(s1, SendList(i)).0
    requires r ==
             O.SetResult(O.SetQueue(s2, i, O.RingPut(O.RingDrop(s.queues[i]), s2.tasks[w].cell)), s.current.value,
             Status.Ok)
    ensures r == Refill(s, i, w)
  {
  }

  lemma CoveredStays(s: State, d: seq<nat>, before: seq<nat>, after: seq<nat>, k: MutexId)
    requires Grew(d, before) && Grew(before, after) && Covered(s, before, after, k)
    requires forall m: MutexId :: m < k ==> Covered(s, d, before, m)
    ensures Grew(d, after) && forall m: MutexId :: m <= k ==> Covered(s, d, after, m)
  {
    forall m: MutexId | m <= k ensures Covered(s, d, after, m) {
      if m < k { assert Covered(s, d, before, m); }
    }
  }

  lemma StartsFromBase(s: State, d: seq<nat>)
    requires ReadyToRecompute(s) && |d| == MAX_TASKS
    requires forall t: TaskId :: d[t] == if t < s.taskCount then s.tasks[t].base else 0
    ensures d == O.GraphOf(s).base
  {
    forall t: TaskId ensures d[t] == O.GraphOf(s).base[t] {
      if t >= s.taskCount { assert IsIdle(s.tasks[t]); }
    }
  }

  lemma ParkSteps(s: State, s1: State, s2: State, r: State, c: TaskId, l: WaitId, cell: Message, n: Tick, d: Tick)
    requires d == S.Deadline(s, n)
    requires s1 ==
             S.SetTask(s, c,
             s.tasks[c].(wait := Some(l), cell := cell, deadline := d, result := BadState, state := BlockedObject))
    requires s2 == S.WaitInsert(s1, l, c)
    requires r ==
             if n != WAIT_FOREVER then S.DelayInsert(s2, c, d) else S.SetTask(s2, c, s2.tasks[c].(delayList := None))
    ensures r == S.Park(s, c, l, cell, n)
  {
  }

  lemma MoveWaitingSteps(s: State, s1: State, s2: State, r: State, t: TaskId, p: Priority, l: WaitId)
    requires t in At(s.lists, WaitList(l))
    requires s1 == s.(lists := SetAt(s.lists, WaitList(l), Without(At(s.lists, WaitList(l)), t)))
    requires s2 == S.SetTask(s1, t, s.tasks[t].(eff := p)) && r == S.WaitInsert(s2, l, t)
    ensures r == S.MoveWaiting(s, t, p, l)
  {
  }

  lemma TerminateSteps(s: State, c: TaskId, s1: State, s2: State, r: State)
    requires S.CurrentRuns(s) && s.current == Some(c) && s1 == O.ReleaseTask(s, c)
    requires s2 == S.SetTask(s1, c, s1.tasks[c].(state := Terminated)) && r == S.PickNext(s2)
    ensures r == O.TerminateCurrent(s)
  {
  }

  lemma SleepSteps(s: State, s1: State, r: State, c: TaskId, n: Tick, target: Tick)
    requires s1 == S.SetTask(s, c, s.tasks[c].(state := BlockedDelay)) && target == WakeTarget(s, n)
    requires r == S.DelayInsert(s1, c, target)
    ensures r == T.Sleep(s, c, n)
  {
    SleepUnfolds(s, s1, c, n);
  }

  lemma ExpireLoopUnfolds(s: State, woke: bool)
    requires T.HeadIsDue(s)
    ensures T.ExpireLoop(s, woke) ==
            T.ExpireLoop(T.ExpireHead(s), woke || T.Outranks(T.ExpireHead(s), s.delayed[s.px][0]))
  {
  }

  lemma ExpireLoopEnds(s: State, woke: bool)
    requires !T.HeadIsDue(s)
    ensures T.ExpireLoop(s, woke) == (s, woke)
  {
  }

  lemma WaiterBelowOwner(s: State, m: MutexId, w: TaskId)
    requires ReadyToRecompute(s) && s.mutexes[m].used && s.mutexes[m].owner.Some?
             && w in At(s.lists, WaitList(MutexList(m)))
    ensures Inherited(O.GraphOf(s))[w] <= Inherited(O.GraphOf(s))[s.mutexes[m].owner.value]
  {
    var g := O.GraphOf(s);
    GraphIsWellFormed(s);
    InheritedIsClosed(g);
    assert O.WaitsFor(s, w) == s.mutexes[m].owner;
    assert Edge(g, w, s.mutexes[m].owner.value);
  }

  lemma PassCoversEdges(s: State, d: seq<nat>, d': seq<nat>)
    requires ReadyToRecompute(s) && InBounds(O.GraphOf(s), d) && InBounds(O.GraphOf(s), d') && Grew(d, d')
    requires forall m: MutexId :: Covered(s, d, d', m)
    ensures PassDone(O.GraphOf(s), d, d')
  {
    var g := O.GraphOf(s);
    forall w, o | Edge(g, w, o) ensures d[w] <= d'[o] {
      var t: TaskId := w;
      assert O.WaitsFor(s, t) == Some(o);
      var m := s.tasks[t].wait.value.mutex;
      assert Covered(s, d, d', m);
      assert t in At(s.lists, WaitList(MutexList(m)));
    }
    forall t | 0 <= t < |d| ensures g.base[t] <= d[t] <= d'[t] <= Inherited(g)[t] {
      var u: TaskId := t;
      assert d[u] <= d'[u] && g.base[u] <= d[u] && d'[u] <= Inherited(g)[u];
    }
  }

  lemma UnusedWantNothing(s: State)
    requires ReadyToRecompute(s)
    ensures forall t: TaskId :: t >= s.taskCount ==> Inherited(O.GraphOf(s))[t] == 0
  {
    forall t: TaskId | t >= s.taskCount ensures Inherited(O.GraphOf(s))[t] == 0 {
      IdleInheritsNothing(s, t);
    }
  }

  lemma {:induction false} ApplyNothing(s: State, want: seq<nat>, k: nat)
    requires |want| == MAX_TASKS && forall t: TaskId :: t >= k ==> want[t] == 0
    ensures O.ApplyFrom(s, want, k) == s
    decreases MAX_TASKS - k
  {
    if k < MAX_TASKS {
      ApplyNothing(s, want, k + 1);
    }
  }

  /** Each method is proved against the function on kernel states that specifies it. */
  class Kernel {
    var tasks: TaskPool
    var taskCount: nat
    var lists: Lists
    var bitmap: bv8
    var delayed: DelayPair
    var px: DelayIndex
    var tick: Tick
    var current: Option<TaskId>
    var nesting: Tick
    var pending: bool
    var started: bool
    var idle: Option<TaskId>
    var sems: SemPool
    var queues: QueuePool
    var mutexes: MutexPool

    /** The abstract state. */
    ghost function St(): State
      reads this
    {
      State(tasks, taskCount, lists, BitmapWord.Bits(bitmap), delayed, px, tick, current, nesting, pending, started,
            idle, sems, queues, mutexes)
    }

    // ----- Ready lists and the switch decision

    method ReadyEnqueue(t: TaskId)
      modifies this
      ensures St() == S.ReadyEnqueue(old(St()), t)
    {
      var p := tasks[t].eff;
      var q := At(lists, ReadyList(p));
      if tasks[t].state != Ready || t in q { return; }
      lists := SetAt(lists, ReadyList(p), q + [t]);
      bitmap := BitmapWord.SetBit(bitmap, p);
    }

    method ReadyRemove(t: TaskId) returns (removed: bool)
      modifies this
      ensures St() == S.ReadyRemove(old(St()), t)
      ensures removed <==> t in At(old(lists), ReadyList(old(tasks[t].eff)))
    {
      var p := tasks[t].eff;
      var q := At(lists, ReadyList(p));
      if t !in q { return false; }
      q := Without(q, t);
      lists := SetAt(lists, ReadyList(p), q);
      if q == [] { bitmap := BitmapWord.ClearBit(bitmap, p); }
      return true;
    }

    method ReadyHighestPriority() returns (p: int)
      ensures p == S.ReadyHighest(St())
    {
      p := PRIORITY_COUNT - 1;
      while p >= 0
        invariant -1 <= p < PRIORITY_COUNT
        invariant HighestIn(BitmapWord.Bits(bitmap), PRIORITY_COUNT - 1) == HighestIn(BitmapWord.Bits(bitmap), p)
      {
        if BitmapWord.HasBit(bitmap, p) { return; }
        p := p - 1;
      }
    }

    method ReadyPopHighest() returns (next: Option<TaskId>)
      modifies this
      ensures (St(), next) == S.PopHighest(old(St()))
    {
      var p := ReadyHighestPriority();
      if p < 0 { return None; }
      var q := At(lists, ReadyList(p));
      if q == [] {
        next := None;
      } else {
        next := Some(q[0]);
        q := q[1..];
      }
      lists := SetAt(lists, ReadyList(p), q);
      if q == [] { bitmap := BitmapWord.ClearBit(bitmap, p); }
    }

    method CommitSwitch(next: Option<TaskId>)
      modifies this
      ensures St() == S.CommitSwitch(old(St()), next)
    {
      if next.Some? {
        tasks := tasks[next.value := tasks[next.value].(state := Running, slice := TIME_SLICE_TICKS)];
      }
      current := next;
    }

    method PickNext()
      modifies this
      ensures St() == S.PickNext(old(St()))
    {
      var next := ReadyPopHighest();
      CommitSwitch(next);
    }

    method Requeue(c: TaskId)
      modifies this
      ensures St() == S.Requeue(old(St()), c)
    {
      tasks := tasks[c := tasks[c].(state := Ready)];
      ReadyEnqueue(c);
    }

    method CurrentRuns() returns (b: bool)
      ensures b == S.CurrentRuns(St())
    {
      b := current.Some? && tasks[current.value].state == Running;
    }

    method SchedStart()
      modifies this
      ensures St() == S.SchedStart(old(St()))
      ensures Inv(old(St())) ==> Inv(St())
    {
      if Inv(St()) { U.StartStep(St()); }
      if started { return; }
      var next := ReadyPopHighest();
      if next == None { return; }
      started := true;
      CommitSwitch(next);
    }

    method SchedSchedule(rotateEqual: bool)
      modifies this
      ensures St() == S.Schedule(old(St()), rotateEqual)
    {
      if !started { return; }
      var runs := CurrentRuns();
      if !runs {
        PickNext();
        return;
      }
      var highest := ReadyHighestPriority();
      if highest < 0 { return; }
      var c := current.value;
      if highest > tasks[c].eff {
        Requeue(c);
        PickNext();
      } else if rotateEqual && highest == tasks[c].eff {
        Requeue(c);
        PickNext();
      }
    }

    method SchedYieldCurrent()
      modifies this
      ensures St() == S.YieldCurrent(old(St()))
      ensures Inv(old(St())) ==> Inv(St())
    {
      if Inv(St()) { YieldStep(St()); }
      var runs := CurrentRuns();
      if !runs { return; }
      Requeue(current.value);
      PickNext();
    }

    method SchedCurrentBlocked()
      modifies this
      ensures St() == S.CurrentBlocked(old(St()))
    {
      if current == None || tasks[current.value].state == Running { return; }
      PickNext();
    }

    // ----- Delay lists

    method TimeDelayListRemove(t: TaskId)
      modifies this
      ensures St() == S.DelayRemove(old(St()), t)
    {
      var d := tasks[t].delayList;
      if d.Some? && t in delayed[d.value] {
        delayed := delayed[d.value := Without(delayed[d.value], t)];
        tasks := tasks[t := tasks[t].(delayList := None)];
      }
    }

    method TimeDelayListInsert(t: TaskId, target: Tick)
      modifies this
      ensures St() == S.DelayInsert(old(St()), t, target)
    {
      TimeDelayListRemove(t);
      var d: DelayIndex := if target < tick then 1 - px else px;
      var q := delayed[d];
      var i := DelayPosition(q, target);
      tasks := tasks[t := tasks[t].(wakeTick := target, delayList := Some(d))];
      delayed := delayed[d := InsertAt(q, i, t)];
    }

    /** The scan for the first task that wakes later. */
    method DelayPosition(q: seq<TaskId>, target: Tick) returns (i: nat)
      ensures i == WakePos(tasks, q, target)
    {
      i := 0;
      while i < |q| && target >= tasks[q[i]].wakeTick
        invariant i <= |q|
        invariant forall j :: 0 <= j < i ==> tasks[q[j]].wakeTick <= target
      {
        i := i + 1;
      }
      WakePosIs(tasks, q, target, i);
    }

    // ----- Waiting for kernel objects

    method WaitInsertByPriority(l: WaitId, t: TaskId)
      modifies this
      ensures St() == S.WaitInsert(old(St()), l, t)
    {
      var q := At(lists, WaitList(l));
      var i := 0;
      while i < |q| && tasks[t].eff <= tasks[q[i]].eff
        invariant i <= |q|
        invariant forall j :: 0 <= j < i ==> tasks[q[j]].eff >= tasks[t].eff
      {
        i := i + 1;
      }
      PriorityPosIs(tasks, q, tasks[t].eff, i);
      lists := SetAt(lists, WaitList(l), InsertAt(q, i, t));
    }

    method TaskSetEffectivePriority(t: TaskId, p: nat)
      modifies this
      ensures St() == S.SetEffectivePriority(old(St()), t, p)
    {
      if p <= IDLE_PRIORITY || p >= PRIORITY_COUNT || tasks[t].eff == p { return; }
      if tasks[t].state == Ready {
        MoveReady(t, p);
      } else if tasks[t].state == BlockedObject && tasks[t].wait.Some?
        && t in At(lists, WaitList(tasks[t].wait.value)) {
        MoveWaiting(t, p, tasks[t].wait.value);
      } else {
        tasks := tasks[t := tasks[t].(eff := p)];
      }
    }

    method MoveReady(t: TaskId, p: Priority)
      modifies this
      ensures St() ==
              if t in At(old(lists), ReadyList(old(tasks[t].eff))) then S.MoveReady(old(St()), t, p) else old(St())
    {
      var removed := ReadyRemove(t);
      if removed {
        tasks := tasks[t := tasks[t].(eff := p)];
        ReadyEnqueue(t);
      }
    }

    method MoveWaiting(t: TaskId, p: Priority, l: WaitId)
      requires t in At(lists, WaitList(l))
      modifies this
      ensures St() == S.MoveWaiting(old(St()), t, p, l)
    {
      ghost var s := St();
      lists := SetAt(lists, WaitList(l), Without(At(lists, WaitList(l)), t));
      ghost var s1 := St();
      tasks := tasks[t := tasks[t].(eff := p)];
      ghost var s2 := St();
      WaitInsertByPriority(l, t);
      MoveWaitingSteps(s, s1, s2, St(), t, p, l);
    }

    /** The part of os_WaitBlockCurrent before the switch. */
    method Park(c: TaskId, l: WaitId, cell: Message, n: Tick)
      modifies this
      ensures St() == S.Park(old(St()), c, l, cell, n)
    {
      ghost var s := St();
      var deadline := DeadlineTick(n);
      tasks := tasks[c := tasks[c].(wait := Some(l), cell := cell, deadline := deadline, result := BadState,
        state := BlockedObject)];
      ghost var s1 := St();
      WaitInsertByPriority(l, c);
      ghost var s2 := St();
      if n != WAIT_FOREVER {
        TimeDelayListInsert(c, deadline);
      } else {
        tasks := tasks[c := tasks[c].(delayList := None)];
      }
      ParkSteps(s, s1, s2, St(), c, l, cell, n, deadline);
    }

    method DeadlineTick(n: Tick) returns (deadline: Tick)
      ensures deadline == S.Deadline(St(), n)
    {
      deadline := if n == WAIT_FOREVER then WAIT_FOREVER else (tick + n) % TICK_MODULUS;
    }

    method WaitBlockCurrent(l: WaitId, cell: Message, timeout: Tick)
      modifies this
      ensures St() == S.WaitBlock(old(St()), l, cell, timeout)
    {
      var runs := CurrentRuns();
      if !runs { return; }
      var n := timeout;
      if n != WAIT_FOREVER && n > MAX_DELAY_TICKS { n := MAX_DELAY_TICKS; }
      Park(current.value, l, cell, n);
      SchedCurrentBlocked();
    }

    method WaitPop(l: WaitId) returns (w: Option<TaskId>)
      modifies this
      ensures (St(), w) == S.WaitPop(old(St()), l)
    {
      var q := At(lists, WaitList(l));
      if q == [] { return None; }
      lists := SetAt(lists, WaitList(l), q[1..]);
      return Some(q[0]);
    }

    method WaitMakeReady(t: TaskId, result: Status)
      modifies this
      ensures St() == S.MakeReady(old(St()), t, result)
    {
      if tasks[t].state != BlockedObject || (tasks[t].wait.Some? && t in At(lists, WaitList(tasks[t].wait.value))) {
        return;
      }
      TimeDelayListRemove(t);
      tasks := tasks[t := tasks[t].(wait := None, deadline := 0, result := result, state := Ready)];
      ReadyEnqueue(t);
    }

    method WaitMaybePreempt(woken: TaskId)
      modifies this
      ensures St() == S.MaybePreempt(old(St()), woken)
    {
      if current.Some? && tasks[woken].eff <= tasks[current.value].eff { return; }
      if nesting > 0 {
        pending := true;
        return;
      }
      SchedSchedule(false);
    }

    // ----- Critical sections

    method EnterCritical()
      modifies this
      ensures St() == S.EnterCritical(old(St()))
      ensures Inv(old(St())) ==> Inv(St())
    {
      if Inv(St()) { EnterStep(St()); }
      nesting := (nesting + 1) % TICK_MODULUS;
    }

    method ExitCritical()
      modifies this
      ensures St() == S.ExitCritical(old(St()))
      ensures Inv(old(St())) ==> Inv(St())
    {
      if Inv(St()) { ExitStep(St()); }
      if nesting == 0 { return; }
      nesting := nesting - 1;
      if nesting == 0 && pending {
        pending := false;
        SchedSchedule(false);
      }
    }

    // ----- Time

    method TimeDelayCurrent(ticks: Tick)
      requires Inv(St())
      modifies this
      ensures St() == T.DelayCurrent(old(St()), ticks) && Inv(St())
    {
      DelayStep(St(), ticks);
      var runs := CurrentRuns();
      if !runs { return; }
      if ticks == 0 {
        SchedYieldCurrent();
        return;
      }
      var n := ticks;
      if n > MAX_DELAY_TICKS { n := MAX_DELAY_TICKS; }
      Sleep(current.value, n);
      SchedCurrentBlocked();
    }

    method WakeTick(n: Tick) returns (target: Tick)
      ensures target == WakeTarget(St(), n)
    {
      target := (tick + n) % TICK_MODULUS;
    }

    method Sleep(c: TaskId, n: Tick)
      modifies this
      ensures St() == T.Sleep(old(St()), c, n)
    {
      ghost var s := St();
      tasks := tasks[c := tasks[c].(state := BlockedDelay)];
      ghost var s1 := St();
      var target := WakeTick(n);
      assert s1 == S.SetTask(s, c, s.tasks[c].(state := BlockedDelay));
      TimeDelayListInsert(c, target);
      SleepSteps(s, s1, St(), c, n, target);
    }

    /** Wakes the task at the head of the current delay list. */
    method ExpireHead() returns (t: TaskId)
      requires Ticking(St()) && T.HeadIsDue(St())
      modifies this
      ensures t == old(delayed[px][0]) && St() == T.ExpireHead(old(St()))
    {
      ghost var s := St();
      t := delayed[px][0];
      delayed := delayed[px := delayed[px][1..]];
      tasks := tasks[t := tasks[t].(delayList := None)];
      if tasks[t].state == BlockedDelay {
        tasks := tasks[t := tasks[t].(state := Ready)];
        ReadyEnqueue(t);
      } else if tasks[t].state == BlockedObject {
        ExpireWaiter(t, s);
      }
    }

    /** Ends the wait of t, just taken from the current delay list of s. */
    method ExpireWaiter(t: TaskId, ghost s: State)
      requires Ticking(s) && T.HeadIsDue(s) && t == s.delayed[s.px][0] && s.tasks[t].state == BlockedObject
      requires St() == T.PopDelayed(s)
      modifies this
      ensures var waitedForMutex := s.tasks[t].wait.Some? && s.tasks[t].wait.value.MutexList?;
              St() == if waitedForMutex then O.WaitersChanged(TimedOut(s, t)) else TimedOut(s, t)
    {
      var waitedForMutex := tasks[t].wait.Some? && tasks[t].wait.value.MutexList?;
      LeaveWaitList(t);
      WaitMakeReady(t, Timeout);
      if waitedForMutex {
        TimedOutReady(s, t);
        MutexWaitersChanged();
      }
    }

    method LeaveWaitList(t: TaskId)
      modifies this
      ensures St() == T.LeaveWaitList(old(St()), t)
    {
      var w := tasks[t].wait;
      if w.Some? && t in At(lists, WaitList(w.value)) {
        lists := SetAt(lists, WaitList(w.value), Without(At(lists, WaitList(w.value)), t));
      }
    }

    /** Wakes every task whose time has come, looking at list heads only. */
    method ExpireAll() returns (wokeHigher: bool)
      requires Ticking(St())
      modifies this
      ensures (St(), wokeHigher) == T.ExpireLoop(old(St()), false)
    {
      ghost var s0 := St();
      wokeHigher := false;
      while delayed[px] != [] && T.TickReached(tick, tasks[delayed[px][0]].wakeTick)
        invariant Ticking(St())
        invariant T.ExpireLoop(St(), wokeHigher) == T.ExpireLoop(s0, false)
        decreases |delayed[px]|
      {
        ghost var s := St();
        ExpireHeadKeeps(s);
        var t := ExpireHead();
        ExpireLoopUnfolds(s, wokeHigher);
        if current == None || tasks[t].eff > tasks[current.value].eff {
          wokeHigher := true;
        }
      }
      ExpireLoopEnds(St(), wokeHigher);
    }

    method TimeTick()
      requires Inv(St())
      modifies this
      ensures St() == T.TimeTick(old(St())) && Inv(St())
    {
      TickStep(St());
      AdvanceKeeps(St());
      AdvanceClock();
      var wokeHigher := ExpireAll();
      SpendSlice();
      EndTick(wokeHigher);
    }

    method AdvanceClock()
      modifies this
      ensures St() == T.AdvanceClock(old(St()))
    {
      tick := (tick + 1) % TICK_MODULUS;
      if tick == 0 {
        px := 1 - px;
      }
    }

    method SpendSlice()
      modifies this
      ensures St() == T.SpendSlice(old(St()))
    {
      if current.Some? {
        var c := current.value;
        if tasks[c].slice > 0 {
          tasks := tasks[c := tasks[c].(slice := tasks[c].slice - 1)];
        }
      }
    }

    method EndTick(wokeHigher: bool)
      modifies this
      ensures St() == T.EndTick(old(St()), wokeHigher)
    {
      var highest := ReadyHighestPriority();
      if (current == None && highest >= 0) || wokeHigher {
        SchedSchedule(false);
        return;
      }
      if current.Some? && tasks[current.value].slice == 0 {
        var before := current;
        SchedSchedule(true);
        if started && current == before {
          tasks := tasks[before.value := tasks[before.value].(slice := TIME_SLICE_TICKS)];
        }
      }
    }

    // ----- Mutexes

    /** The highest wanted priority among the owner and the waiters of mutex m. */
    method HighestWaiter(desired: array<nat>, m: MutexId, o: TaskId) returns (inherited: nat)
      requires desired.Length == MAX_TASKS
      ensures inherited >= desired[o]
      ensures forall w: TaskId :: w in At(lists, WaitList(MutexList(m))) ==> desired[w] <= inherited
      ensures inherited == desired[o]
              || exists w: TaskId :: w in At(lists, WaitList(MutexList(m))) && inherited == desired[w]
    {
      inherited := desired[o];
      var q := At(lists, WaitList(MutexList(m)));
      var k := 0;
      while k < |q|
        invariant k <= |q|
        invariant inherited >= desired[o]
        invariant forall j :: 0 <= j < k ==> desired[q[j]] <= inherited
        invariant inherited == desired[o] || exists w: TaskId :: w in q && inherited == desired[w]
      {
        if desired[q[k]] > inherited {
          inherited := desired[q[k]];
          assert q[k] in q;
        }
        k := k + 1;
      }
    }

    /** One mutex of a propagation pass: its owner inherits from its waiters. */
    method RaiseOwner(desired: array<nat>, m: MutexId) returns (changed: bool)
      requires desired.Length == MAX_TASKS && ReadyToRecompute(St())
      requires InBounds(O.GraphOf(St()), desired[..])
      modifies desired
      ensures InBounds(O.GraphOf(old(St())), desired[..]) && Grew(old(desired[..]), desired[..])
      ensures !changed ==> desired[..] == old(desired[..])
      ensures Covered(old(St()), old(desired[..]), desired[..], m)
    {
      changed := false;
      if !mutexes[m].used || mutexes[m].owner == None { return; }
      ghost var s := St();
      ghost var d := desired[..];
      var o := mutexes[m].owner.value;
      var inherited := HighestWaiter(desired, m, o);
      OwnerMayInherit(s, d, m, o, inherited);
      if inherited > desired[o] {
        desired[o] := inherited;
        changed := true;
      }
      assert desired[..] == d[o := inherited];
    }

    /** One pass over all mutexes. */
    method Pass(desired: array<nat>) returns (changed: bool)
      requires desired.Length == MAX_TASKS && ReadyToRecompute(St())
      requires InBounds(O.GraphOf(St()), desired[..])
      modifies desired
      ensures PassDone(O.GraphOf(St()), old(desired[..]), desired[..])
      ensures !changed ==> desired[..] == old(desired[..])
    {
      ghost var s := St();
      ghost var g := O.GraphOf(s);
      ghost var d := desired[..];
      changed := false;
      var index := 0;
      while index < MAX_MUTEXES
        invariant index <= MAX_MUTEXES && St() == s
        invariant InBounds(g, desired[..]) && Grew(d, desired[..])
        invariant !changed ==> desired[..] == d
        invariant forall m: MutexId :: m < index ==> Covered(s, d, desired[..], m)
      {
        ghost var before := desired[..];
        var raised := RaiseOwner(desired, index);
        CoveredStays(s, d, before, desired[..], index);
        changed := changed || raised;
        index := index + 1;
      }
      PassCoversEdges(s, d, desired[..]);
    }

    /** At most as many passes as there are tasks reach the inherited priorities, whatever the
        order of the mutexes and even when tasks wait for each other in a cycle. */
    method Propagate(desired: array<nat>)
      requires desired.Length == MAX_TASKS && ReadyToRecompute(St()) && desired[..] == O.GraphOf(St()).base
      modifies desired
      ensures desired[..] == Inherited(O.GraphOf(old(St())))
    {
      ghost var s := St();
      ghost var g := O.GraphOf(s);
      GraphIsWellFormed(s);
      ProgressStarts(g);
      InheritedIsClosed(g);
      BaseInBounds(g);
      var pass := 0;
      while pass < MAX_TASKS
        invariant pass <= MAX_TASKS && St() == s
        invariant InBounds(g, desired[..]) && Progress(g, desired[..], pass)
      {
        ghost var d := desired[..];
        var changed := Pass(desired);
        if !changed {
          QuietPassIsFinal(g, d);
          return;
        }
        ProgressPass(g, d, desired[..], pass);
        pass := pass + 1;
      }
      BoundsEverywhere(g, desired[..]);
      EnoughPasses(g, desired[..]);
    }

    /** Sets the effective priority of every task to the wanted one. */
    method ApplyPriorities(desired: array<nat>)
      requires desired.Length == MAX_TASKS && taskCount <= MAX_TASKS
      requires forall t: TaskId :: t >= taskCount ==> desired[t] == 0
      modifies this
      ensures St() == O.ApplyFrom(old(St()), desired[..], 0)
    {
      ghost var s := St();
      ghost var want := desired[..];
      var index := 0;
      while index < taskCount
        invariant index <= taskCount == s.taskCount
        invariant desired[..] == want
        invariant O.ApplyFrom(St(), want, index) == O.ApplyFrom(s, want, 0)
      {
        TaskSetEffectivePriority(index, desired[index]);
        index := index + 1;
      }
      ApplyNothing(St(), want, index);
    }

    /** Recomputes all effective priorities: bounded in-place propagation, then one loop that
        applies the result. */
    method MutexWaitersChanged()
      requires ReadyToRecompute(St())
      modifies this
      ensures St() == O.WaitersChanged(old(St()))
    {
      ghost var s := St();
      var desired := new nat[MAX_TASKS](_ => 0);
      var index := 0;
      while index < taskCount
        invariant index <= taskCount && St() == s
        invariant forall t: TaskId :: desired[t] == if t < index then s.tasks[t].base else 0
      {
        desired[index] := tasks[index].base;
        index := index + 1;
      }
      StartsFromBase(s, desired[..]);
      Propagate(desired);
      UnusedWantNothing(s);
      assert desired[..] == Inherited(O.GraphOf(s));
      ApplyPriorities(desired);
    }

    method SetResult(t: TaskId, r: Status)
      modifies this
      ensures St() == O.SetResult(old(St()), t, r)
    {
      tasks := tasks[t := tasks[t].(result := r)];
    }

    method MutexLockCurrent(m: Option<MutexId>, timeout: Tick)
      requires Inv(St())
      modifies this
      ensures St() == O.LockCurrent(old(St()), m, timeout)
      ensures Allowed(old(St()), Op.Lock(m, timeout)) ==> Inv(St())
    {
      if Allowed(St(), Op.Lock(m, timeout)) { LockStep(St(), m, timeout); }
      var runs := CurrentRuns();
      if !runs { return; }
      var c := current.value;
      if m == None || !mutexes[m.value].used {
        SetResult(c, InvalidArgument);
      } else if mutexes[m.value].owner == None {
        mutexes := mutexes[m.value := mutexes[m.value].(owner := current)];
        SetResult(c, Status.Ok);
      } else if mutexes[m.value].owner == current {
        SetResult(c, BadState);
      } else if timeout == 0 {
        SetResult(c, Timeout);
      } else {
        BlockOnMutex(m.value, timeout);
      }
    }

    /** Waits for mutex m, and lets its boosted owner run if that outranks whoever was picked. */
    method BlockOnMutex(m: MutexId, timeout: Tick)
      requires Inv(St()) && current.Some? && mutexes[m].owner.Some? && timeout != 0
      modifies this
      ensures St() ==
              O.BoostOwner(S.WaitBlock(old(St()), MutexList(m), old(tasks[current.value].cell), timeout),
              old(mutexes[m].owner.value))
    {
      var o, cell := mutexes[m].owner.value, tasks[current.value].cell;
      ParkedReady(St(), MutexList(m), cell, timeout);
      WaitBlockCurrent(MutexList(m), cell, timeout);
      MutexWaitersChanged();
      if current.Some? && tasks[o].eff > tasks[current.value].eff {
        SchedSchedule(false);
      }
    }

    method PassOn(m: MutexId) returns (w: Option<TaskId>)
      modifies this
      ensures (St(), w) == O.PassOn(old(St()), m)
    {
      w := WaitPop(MutexList(m));
      mutexes := mutexes[m := mutexes[m].(owner := w)];
    }

    method MutexUnlockCurrent(m: Option<MutexId>)
      requires Inv(St())
      modifies this
      ensures St() == O.UnlockCurrent(old(St()), m) && Inv(St())
    {
      UnlockStep(St(), m);
      var runs := CurrentRuns();
      if !runs { return; }
      var c := current.value;
      if m == None || !mutexes[m.value].used {
        SetResult(c, InvalidArgument);
      } else if mutexes[m.value].owner != current {
        SetResult(c, NotOwner);
      } else {
        PassedReady(St(), m.value);
        var w := PassOn(m.value);
        SetResult(c, Status.Ok);
        MutexWaitersChanged();
        if w.Some? {
          WaitMakeReady(w.value, Status.Ok);
          WaitMaybePreempt(w.value);
        }
      }
    }

    /** Releases mutex m if t owns it. */
    method ReleaseOne(t: TaskId, m: MutexId) returns (released: bool)
      modifies this
      ensures St() == O.ReleaseOne(old(St()), t, m) && released == O.Owns(old(St()), t, m)
    {
      if !mutexes[m].used || mutexes[m].owner != Some(t) { return false; }
      var w := PassOn(m);
      if w.Some? {
        WaitMakeReady(w.value, Status.Ok);
      }
      return true;
    }

    method MutexReleaseTask(t: TaskId)
      requires Inv(St()) && current == Some(t)
      modifies this
      ensures St() == O.ReleaseTask(old(St()), t)
    {
      ghost var s0 := St();
      ReleaseFromKeeps(s0, t, 0);
      var releasedAny := false;
      var index := 0;
      while index < MAX_MUTEXES
        invariant index <= MAX_MUTEXES
        invariant O.ReleaseFrom(s0, t, 0) == O.ReleaseFrom(St(), t, index)
        invariant releasedAny <==> exists m: MutexId :: m < index && O.Owns(s0, t, m)
        invariant forall m: MutexId :: m >= index ==> mutexes[m] == s0.mutexes[m]
      {
        var released := ReleaseOne(t, index);
        releasedAny := releasedAny || released;
        index := index + 1;
      }
      if releasedAny {
        RecomputeReady(St());
        MutexWaitersChanged();
      }
    }

    method SchedTerminateCurrent()
      requires Inv(St())
      modifies this
      ensures St() == O.TerminateCurrent(old(St())) && Inv(St())
    {
      TerminateStep(St());
      var runs := CurrentRuns();
      if !runs { return; }
      ghost var s := St();
      var c := current.value;
      MutexReleaseTask(c);
      ghost var s1 := St();
      tasks := tasks[c := tasks[c].(state := Terminated)];
      ghost var s2 := St();
      PickNext();
      TerminateSteps(s, c, s1, s2, St());
    }

    // ----- Semaphores

    method SemTakeCurrent(i: Option<SemId>, timeout: Tick)
      requires Inv(St())
      modifies this
      ensures St() == O.TakeCurrent(old(St()), i, timeout) && Inv(St())
    {
      TakeStep(St(), i, timeout);
      var runs := CurrentRuns();
      if !runs { return; }
      var c := current.value;
      if !SemIsValid(i) {
        SetResult(c, InvalidArgument);
      } else if sems[i.value].count > 0 {
        sems := sems[i.value := sems[i.value].(count := sems[i.value].count - 1)];
        SetResult(c, Status.Ok);
      } else if timeout == 0 {
        SetResult(c, Timeout);
      } else {
        WaitBlockCurrent(SemList(i.value), tasks[c].cell, timeout);
      }
    }

    predicate SemIsValid(i: Option<SemId>)
      reads this
    {
      i.Some? && sems[i.value].used && sems[i.value].maximum > 0 && sems[i.value].count <= sems[i.value].maximum
    }

    method SemGiveFromIsrContext(i: Option<SemId>) returns (status: Status, woken: Option<TaskId>)
      modifies this
      ensures (St(), status, woken) == O.GiveAny(old(St()), i)
    {
      if !SemIsValid(i) { return InvalidArgument, None; }
      woken := WaitPop(SemList(i.value));
      if woken.Some? {
        WaitMakeReady(woken.value, Status.Ok);
        return Status.Ok, woken;
      }
      if sems[i.value].count >= sems[i.value].maximum { return LimitReached, None; }
      sems := sems[i.value := sems[i.value].(count := sems[i.value].count + 1)];
      return Status.Ok, None;
    }

    method SemGiveCurrent(i: Option<SemId>)
      requires Inv(St())
      modifies this
      ensures St() == O.GiveCurrent(old(St()), i) && Inv(St())
    {
      GiveStep(St(), i);
      var runs := CurrentRuns();
      if !runs { return; }
      var c := current.value;
      var status, woken := SemGiveFromIsrContext(i);
      SetResult(c, status);
      if woken.Some? {
        WaitMaybePreempt(woken.value);
      }
    }

    method SemaphoreGiveFromIsr(i: Option<SemId>) returns (status: Status)
      requires Inv(St())
      modifies this
      ensures St() == O.GiveFromIsr(old(St()), i) && Inv(St())
      ensures status == O.GiveAny(S.EnterCritical(old(St())), i).1
    {
      GiveFromIsrStep(St(), i);
      EnterCritical();
      var woken;
      status, woken := SemGiveFromIsrContext(i);
      if woken.Some? {
        WaitMaybePreempt(woken.value);
      }
      ExitCritical();
    }

    // ----- Message queues

    predicate QueueIsValid(i: Option<QueueId>)
      reads this
    {
      i.Some? && var q := queues[i.value];
      q.used && q.capacity > 0 && |q.buffer| == q.capacity && q.count <= q.capacity && q.head < q.capacity
        && q.tail < q.capacity
    }

    method SetCell(t: TaskId, item: Message)
      modifies this
      ensures St() == O.SetCell(old(St()), t, item)
    {
      tasks := tasks[t := tasks[t].(cell := item)];
    }

    method QueueSendCurrent(i: Option<QueueId>, item: Option<Message>, timeout: Tick)
      requires Inv(St())
      modifies this
      ensures St() == O.SendCurrent(old(St()), i, item, timeout) && Inv(St())
    {
      SendStep(St(), i, item, timeout);
      SendMessage(i, item, timeout);
    }

    method SendMessage(i: Option<QueueId>, item: Option<Message>, timeout: Tick)
      modifies this
      ensures St() == O.SendCurrent(old(St()), i, item, timeout)
    {
      var runs := CurrentRuns();
      if !runs { return; }
      var c := current.value;
      if !QueueIsValid(i) || item == None {
        SetResult(c, InvalidArgument);
        return;
      }
      var receiver := WaitPop(ReceiveList(i.value));
      if receiver.Some? {
        SetCell(receiver.value, item.value);
        SetResult(c, Status.Ok);
        Serve(receiver.value);
        return;
      }
      if queues[i.value].count < queues[i.value].capacity {
        PutAtTail(i.value, item.value);
        SetResult(c, Status.Ok);
        return;
      }
      if timeout == 0 {
        SetResult(c, Timeout);
        return;
      }
      WaitBlockCurrent(SendList(i.value), item.value, timeout);
    }

    method QueueReceiveCurrent(i: Option<QueueId>, out: bool, timeout: Tick)
      requires Inv(St())
      modifies this
      ensures St() == O.ReceiveCurrent(old(St()), i, out, timeout) && Inv(St())
    {
      ReceiveStep(St(), i, out, timeout);
      var runs := CurrentRuns();
      if !runs { return; }
      var c := current.value;
      if !QueueIsValid(i) || !out {
        SetResult(c, InvalidArgument);
        return;
      }
      if queues[i.value].count > 0 {
        ReceiveMessage(i.value, timeout);
        return;
      }
      if timeout == 0 {
        SetResult(c, Timeout);
        return;
      }
      WaitBlockCurrent(ReceiveList(i.value), tasks[c].cell, timeout);
    }

    /** Takes the message at the head and lets the front sender put its message in. */
    method ReceiveMessage(i: QueueId, ghost timeout: Tick)
      requires S.CurrentRuns(St()) && QueueIsValid(Some(i)) && queues[i].count > 0
      modifies this
      ensures St() == O.ReceiveCurrent(old(St()), Some(i), true, timeout)
    {
      ghost var s := St();
      ReceiveUnfolds(s, i, timeout);
      TakeHead(i);
      ghost var s1 := St();
      var sender := WaitPop(SendList(i));
      ghost var s2 := St();
      assert sender == S.WaitPop(s, SendList(i)).1;
      if sender.Some? {
        PutAtTail(i, tasks[sender.value].cell);
        SetResult(current.value, Status.Ok);
        RefillSteps(s, i, s1, s2, sender.value, St());
        Serve(sender.value);
      } else {
        SetResult(current.value, Status.Ok);
      }
    }

    method TakeHead(i: QueueId)
      requires S.CurrentRuns(St()) && QueueIsValid(Some(i)) && queues[i].count > 0
      modifies this
      ensures var q := old(queues[i]);
              St() == O.SetQueue(O.SetCell(old(St()), old(current.value), q.buffer[q.head]), i, O.RingDrop(q))
    {
      var q := queues[i];
      SetCell(current.value, q.buffer[q.head]);
      queues := queues[i := q.(head := (q.head + 1) % q.capacity, count := q.count - 1)];
    }

    method PutAtTail(i: QueueId, item: Message)
      requires queues[i].capacity > 0 && queues[i].tail < |queues[i].buffer|
      modifies this
      ensures St() == O.SetQueue(old(St()), i, O.RingPut(old(queues[i]), item))
    {
      var q := queues[i];
      queues := queues[i := q.(buffer := q.buffer[q.tail := item], tail := (q.tail + 1) % q.capacity,
        count := q.count + 1)];
    }

    method Serve(w: TaskId)
      modifies this
      ensures St() == O.Serve(old(St()), w)
    {
      WaitMakeReady(w, Status.Ok);
      WaitMaybePreempt(w);
    }

    /** Copies the messages in the order they will be received, without removing them. */
    method QueueSnapshot(i: Option<QueueId>, maximum: nat) returns (items: seq<Message>)
      requires Inv(St())
      ensures items == if QueueIsValid(i) then Oldest(queues[i.value], maximum) else []
    {
      items := [];
      if !QueueIsValid(i) { return; }
      var q := queues[i.value];
      var n := if q.count < maximum then q.count else maximum;
      var k := 0;
      while k < n
        invariant k <= n
        invariant items == Contents(q)[..k]
      {
        items := items + [q.buffer[(q.head + k) % q.capacity]];
        k := k + 1;
      }
    }

    // ----- Setup

    constructor ()
      ensures St() == U.Init() && Inv(St())
    {
      tasks := seq(MAX_TASKS, _ => UNUSED_TASK);
      taskCount, lists, bitmap, delayed, px, tick := 0, map[], 0, [[], []], 0, 0;
      current, nesting, pending, started, idle := None, 0, false, false, None;
      sems := seq(MAX_SEMAPHORES, _ => Semaphore(false, 0, 0));
      queues := seq(MAX_QUEUES, _ => Queue(false, [], 0, 0, 0, 0));
      mutexes := seq(MAX_MUTEXES, _ => Mutex(false, None));
      new;
      U.InitKeeps();
      assert forall p: Priority :: !BitmapWord.HasBit(0, p);
    }

    /** The status that os_TaskCreateInternal gives for a priority in the current state. */
    function CreateStatus(priority: nat, forIdle: bool): Status
      reads this
    {
      if started then BadState
      else if priority >= PRIORITY_COUNT || (priority <= IDLE_PRIORITY && !forIdle) then InvalidArgument
      else if taskCount >= MAX_TASKS then LimitReached
      else Status.Ok
    }

    method TaskCreate(priority: nat, forIdle: bool) returns (status: Status)
      requires Inv(St())
      modifies this
      ensures status == old(CreateStatus(priority, forIdle))
      ensures St() == U.TaskCreate(old(St()), priority, forIdle)
      ensures taskCount == old(taskCount) + if status == Status.Ok then 1 else 0
    {
      status := CreateStatus(priority, forIdle);
      if status != Status.Ok { return; }
      var t: TaskId := taskCount;
      tasks := tasks[t := U.NewTask(priority)];
      ReadyEnqueue(t);
      taskCount := taskCount + 1;
    }

    /** xTaskCreate: the priority of Idle is refused. */
    method UserTaskCreate(priority: nat) returns (status: Status)
      requires Inv(St())
      modifies this
      ensures status == old(CreateStatus(priority, false))
      ensures St() == U.TaskCreate(old(St()), priority, false) && Inv(St())
    {
      U.TaskCreateStep(St(), priority);
      status := TaskCreate(priority, false);
    }

    method EnsureIdleTask() returns (status: Status)
      requires Inv(St())
      modifies this
      ensures status == if old(idle).Some? then Status.Ok else old(CreateStatus(IDLE_PRIORITY, true))
      ensures St() == U.EnsureIdleTask(old(St())) && Inv(St())
    {
      U.TaskCreateStep(St(), 0);
      if idle.Some? { return Status.Ok; }
      var before := taskCount;
      status := TaskCreate(IDLE_PRIORITY, true);
      if status == Status.Ok { idle := Some(before); }
    }
  }
}
