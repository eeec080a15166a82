/** What every reachable state promises about the kernel objects and the lists. */
module Guarantees {
  import opened Wrappers
  import opened ReadyBitmap
  import opened KernelState
  import opened TaskLists
  import opened Sched
  import opened KernelObjects
  import opened Inheritance
  import opened Placement
  import opened DelayLists
  import opened Invariants
  import opened StepProofs
  import opened MutexProofs
  import opened Machine
  import opened Effects

  function Waiters(s: State, l: WaitId): seq<TaskId> {
    At(s.lists, WaitList(l))
  }

  // ----- Lists

  /** A waiting list holds exactly the tasks that wait for it, each once, in descending priority. */
  lemma WaitListIsExact(s: State, l: WaitId)
    requires Reachable(s)
    ensures forall t: TaskId :: t in Waiters(s, l) <==> s.tasks[t].state == BlockedObject && s.tasks[t].wait == Some(l)
    ensures NoDuplicates(Waiters(s, l))
    ensures forall i, j :: 0 <= i < j < |Waiters(s, l)|
              ==> s.tasks[Waiters(s, l)[i]].eff >= s.tasks[Waiters(s, l)[j]].eff
  {
    ReachableInv(s);
    assert NoDuplicates(Waiters(s, l)) && ByPriority(s.tasks, Waiters(s, l));
    forall t: TaskId ensures t in Waiters(s, l) <==> s.tasks[t].state == BlockedObject && s.tasks[t].wait == Some(l) {
      assert t in At(s.lists, WaitList(l)) <==> Home(s.tasks[t]) == Some(WaitList(l));
      assert Coherent(s.tasks[t]);
    }
  }

  /** A ready list holds exactly the ready tasks of its priority, each once; the bitmap is exact. */
  lemma ReadyListIsExact(s: State, p: Priority)
    requires Reachable(s)
    ensures forall t: TaskId :: t in At(s.lists, ReadyList(p)) <==> s.tasks[t].state == Ready && s.tasks[t].eff == p
    ensures NoDuplicates(At(s.lists, ReadyList(p)))
    ensures p in s.bitmap <==> exists t: TaskId :: s.tasks[t].state == Ready && s.tasks[t].eff == p
  {
    ReachableInv(s);
    var q := At(s.lists, ReadyList(p));
    assert NoDuplicates(q);
    forall t: TaskId ensures t in q <==> s.tasks[t].state == Ready && s.tasks[t].eff == p {
      assert t in q <==> Home(s.tasks[t]) == Some(ReadyList(p));
    }
    if q != [] { assert q[0] in q; }
  }

  /** A delay list holds exactly the sleepers of its epoch, each once, in the order of their
      wake ticks; nobody is in both, and nobody is overdue. */
  lemma DelayListIsExact(s: State, t: TaskId)
    requires Reachable(s)
    ensures t in s.delayed[0] || t in s.delayed[1] <==>
              s.tasks[t].state == BlockedDelay || (s.tasks[t].state == BlockedObject && s.tasks[t].delayList.Some?)
    ensures !(t in s.delayed[0] && t in s.delayed[1])
    ensures t in s.delayed[s.px] ==> s.tick < s.tasks[t].wakeTick
    ensures t in s.delayed[1 - s.px] ==> s.tasks[t].wakeTick < s.tick
    ensures forall d: DelayIndex :: NoDuplicates(s.delayed[d]) && ByWakeTick(s.tasks, s.delayed[d])
  {
    ReachableInv(s);
    DelayPlaceIsExact(s, t);
  }

  lemma DelayPlaceIsExact(s: State, t: TaskId)
    requires Delays(s, false) && AllCoherent(s.tasks)
    ensures t in s.delayed[0] || t in s.delayed[1] <==>
              s.tasks[t].state == BlockedDelay || (s.tasks[t].state == BlockedObject && s.tasks[t].delayList.Some?)
    ensures !(t in s.delayed[0] && t in s.delayed[1])
    ensures t in s.delayed[s.px] ==> s.tick < s.tasks[t].wakeTick
    ensures t in s.delayed[1 - s.px] ==> s.tasks[t].wakeTick < s.tick
  {
    assert Coherent(s.tasks[t]) && OnTime(s.tasks[t], s.px, s.tick, false);
    assert forall d: DelayIndex :: t in s.delayed[d] <==> s.tasks[t].delayList == Some(d);
  }

  /** The base priority of a created task never changes. */
  lemma BaseIsFixed(s: State, op: Op, t: TaskId)
    requires Inv(s) && Allowed(s, op) && s.tasks[t].state != Unused
    ensures Next(s, op).tasks[t].base == s.tasks[t].base
  {
    if op.Tick? { TickEffect(s); } else { StepEffect(s, op); }
  }

  // ----- Queues, semaphores and mutexes

  lemma WaiterFits(s: State, l: WaitId)
    requires Inv(s) && Waiters(s, l) != []
    ensures FitsAt(s, Waiters(s, l)[0], Some(l))
  {
    var w := Waiters(s, l)[0];
    assert w in Waiters(s, l);
    assert WaitFits(s, w);
  }

  /** Receivers wait only at an empty ring and senders only at a full one, never both. */
  lemma QueueExclusive(s: State, i: QueueId)
    requires Reachable(s) && s.queues[i].used
    ensures var q := s.queues[i];
            && q.capacity > 0 && q.count <= q.capacity && q.tail == (q.head + q.count) % q.capacity
            && (Waiters(s, ReceiveList(i)) != [] ==> q.count == 0)
            && (Waiters(s, SendList(i)) != [] ==> q.count == q.capacity)
            && (Waiters(s, ReceiveList(i)) == [] || Waiters(s, SendList(i)) == [])
  {
    ReachableInv(s);
    assert QueueFits(s.queues[i]);
    if Waiters(s, ReceiveList(i)) != [] { WaiterFits(s, ReceiveList(i)); }
    if Waiters(s, SendList(i)) != [] { WaiterFits(s, SendList(i)); }
  }

  lemma SemaphoreBounds(s: State, i: SemId)
    requires Reachable(s) && s.sems[i].used
    ensures s.sems[i].count <= s.sems[i].maximum
    ensures Waiters(s, SemList(i)) != [] ==> s.sems[i].count == 0
  {
    ReachableInv(s);
    assert SemFits(s.sems[i]);
    if Waiters(s, SemList(i)) != [] { WaiterFits(s, SemList(i)); }
  }

  /** A mutex somebody waits for has a live owner that is not waiting for it. */
  lemma WaitedMutexIsOwned(s: State, m: MutexId)
    requires Reachable(s)
    ensures s.mutexes[m].owner.Some? ==> IsAlive(s.tasks[s.mutexes[m].owner.value])
    ensures Waiters(s, MutexList(m)) != []
            ==> s.mutexes[m].owner.Some? && s.mutexes[m].owner.value !in Waiters(s, MutexList(m))
  {
    ReachableInv(s);
    assert OwnerFits(s.tasks, s.mutexes[m]);
    if Waiters(s, MutexList(m)) != [] {
      WaiterFits(s, MutexList(m));
      var o := s.mutexes[m].owner.value;
      assert WaitFits(s, o);
      assert o in Waiters(s, MutexList(m)) ==> Home(s.tasks[o]) == Some(WaitList(MutexList(m)));
    }
  }

  /** w is a waiter of list l that no other waiter outranks. */
  predicate TopWaiter(s: State, l: WaitId, w: TaskId) {
    w in Waiters(s, l) && forall t: TaskId :: t in Waiters(s, l) ==> s.tasks[t].eff <= s.tasks[w].eff
  }

  /** The resource goes to a highest-priority waiter, or to nobody when nobody waits. */
  predicate HandedTo(s: State, l: WaitId, w: Option<TaskId>) {
    if Waiters(s, l) == [] then w == None else w.Some? && TopWaiter(s, l, w.value)
  }

  lemma FrontIsTop(s: State, l: WaitId)
    requires Inv(s)
    ensures HandedTo(s, l, WaitPop(s, l).1)
  {
    if Waiters(s, l) != [] { assert ByPriority(s.tasks, Waiters(s, l)); }
  }

  lemma UnlockPops(s: State, m: MutexId)
    requires Inv(s) && s.current.Some? && s.mutexes[m].used && s.mutexes[m].owner == s.current
    ensures UnlockCurrent(s, Some(m)).mutexes[m].owner == WaitPop(s, MutexList(m)).1
  {
    if WaitPop(s, MutexList(m)).1.Some? {
      UnlockPassesEffect(s, m);
    } else {
      UnlockFrees(s, m, UnlockCurrent(s, Some(m)));
    }
  }

  lemma UnlockFrees(s: State, m: MutexId, r: State)
    requires Inv(s) && s.current.Some? && s.mutexes[m].used && s.mutexes[m].owner == s.current
             && WaitPop(s, MutexList(m)).1 == None
    requires r == UnlockCurrent(s, Some(m))
    ensures r.mutexes[m].owner == None
  {
    var s1 := SetResult(PassOn(s, m).0, s.current.value, Status.Ok);
    UnlockFreeInv(s, m);
    RecomputeQuiet(s1);
    assert r == WaitersChanged(s1);
  }

  /** Unlocking gives the mutex to a highest-priority waiter, or frees it. */
  lemma UnlockHandsToTop(s: State, m: MutexId)
    requires Reachable(s) && s.current.Some? && s.mutexes[m].used && s.mutexes[m].owner == s.current
    ensures HandedTo(s, MutexList(m), UnlockCurrent(s, Some(m)).mutexes[m].owner)
  {
    ReachableInv(s);
    UnlockPops(s, m);
    Pops(s, m, UnlockCurrent(s, Some(m)).mutexes[m].owner);
  }

  lemma Pops(s: State, m: MutexId, o: Option<TaskId>)
    requires Inv(s) && o == WaitPop(s, MutexList(m)).1
    ensures HandedTo(s, MutexList(m), o)
  {
    FrontIsTop(s, MutexList(m));
  }

  lemma ExitPops(s: State, c: TaskId, m: MutexId)
    requires Inv(s) && s.current == Some(c)
    ensures TerminateCurrent(s).tasks[c].state == Terminated
    ensures TerminateCurrent(s).mutexes[m] ==
            if s.mutexes[m].owner == Some(c) then s.mutexes[m].(owner := WaitPop(s, MutexList(m)).1) else s.mutexes[m]
  {
    assert OwnerFits(s.tasks, s.mutexes[m]);
    ExitEffect(s);
    assert Inherits(s, c, TerminateCurrent(s));
  }

  /** A task that ends leaves every mutex it owned to a highest-priority waiter or frees it. */
  lemma ExitReleases(s: State, m: MutexId, c: TaskId)
    requires Reachable(s) && s.current == Some(c)
    ensures TerminateCurrent(s).tasks[c].state == Terminated
    ensures if s.mutexes[m].owner == Some(c) then HandedTo(s, MutexList(m), TerminateCurrent(s).mutexes[m].owner)
            else TerminateCurrent(s).mutexes[m] == s.mutexes[m]
  {
    ReachableInv(s);
    ExitPops(s, c, m);
    if s.mutexes[m].owner == Some(c) { Pops(s, m, TerminateCurrent(s).mutexes[m].owner); }
  }

  lemma TerminatedOwnsNothing(s: State, m: MutexId, t: TaskId)
    requires Reachable(s) && s.tasks[t].state == Terminated
    ensures s.mutexes[m].owner != Some(t)
  {
    ReachableInv(s);
    assert OwnerFits(s.tasks, s.mutexes[m]);
  }

  /** Leaving the outermost critical section makes up for every postponed switch. */
  lemma LeaveCatchesUp(s: State)
    requires Reachable(s) && s.nesting == 1 && s.started
    ensures var r := Next(s, Op.Leave);
            && r.nesting == 0 && !r.pending
            && forall t: TaskId :: r.tasks[t].state == Ready
                 ==> r.current.Some? && r.tasks[t].eff <= r.tasks[r.current.value].eff
  {
    ReachableInv(s);
    OutermostLeave(s, ExitCritical(s));
  }

  lemma OutermostLeave(s: State, r: State)
    requires Inv(s) && s.nesting == 1 && s.started && r == ExitCritical(s)
    ensures r.nesting == 0 && !r.pending
    ensures forall t: TaskId :: r.tasks[t].state == Ready
              ==> r.current.Some? && r.tasks[t].eff <= r.tasks[r.current.value].eff
  {
    ExitStep(s);
    LeaveUnfolds(s);
  }

  lemma LeaveUnfolds(s: State)
    requires s.nesting == 1 && s.started
    ensures ExitCritical(s).nesting == 0 && ExitCritical(s).started
  {
    if s.pending { ScheduleFlags(s.(nesting := 0, pending := false)); }
  }

  lemma ScheduleFlags(s: State)
    ensures Schedule(s, false).nesting == s.nesting && Schedule(s, false).started == s.started
  {
  }

  // ----- Why Idle must not lock a mutex

  lemma {:induction false} ApplyFromExact(s: State, want: seq<nat>, k: nat)
    requires Containers(s, {}) && |want| == MAX_TASKS && forall t: TaskId :: want[t] < PRIORITY_COUNT
    ensures forall t: TaskId ::
              ApplyFrom(s, want, k).tasks[t] ==
              if t < k || want[t] == 0 then s.tasks[t] else s.tasks[t].(eff := want[t])
    decreases MAX_TASKS - k
  {
    if k < MAX_TASKS {
      SetEffectivePriorityKeeps(s, k, want[k], {});
      ApplyFromExact(SetEffectivePriority(s, k, want[k]), want, k + 1);
    }
  }

  lemma ApplyFromWaits(s: State, want: seq<nat>)
    requires Containers(s, {}) && |want| == MAX_TASKS && forall t: TaskId :: want[t] < PRIORITY_COUNT
    ensures GraphOf(ApplyFrom(s, want, 0)) == GraphOf(s)
  {
    ApplyFromSameWaiters(s, want, 0);
    ApplyFromExact(s, want, 0);
    var r := ApplyFrom(s, want, 0);
    forall t: TaskId ensures r.tasks[t].base == s.tasks[t].base && WaitsFor(r, t) == WaitsFor(s, t) { }
    assert GraphOf(r).base == GraphOf(s).base && GraphOf(r).next == GraphOf(s).next;
  }

  lemma {:induction false} ApplyFromSameWaiters(s: State, want: seq<nat>, k: nat)
    requires Containers(s, {}) && |want| == MAX_TASKS
    ensures SameWaiters(s, ApplyFrom(s, want, k))
    decreases MAX_TASKS - k
  {
    if k < MAX_TASKS {
      SetEffectivePriorityKeeps(s, k, want[k], {});
      ApplyFromSameWaiters(SetEffectivePriority(s, k, want[k]), want, k + 1);
    }
  }

  lemma InheritedIsPriority(s: State, t: TaskId)
    ensures Inherited(GraphOf(s))[t] < PRIORITY_COUNT
  {
    var p := AttainingPath(GraphOf(s), t);
    assert GraphOf(s).base[p[0]] == s.tasks[p[0]].base;
  }

  /** Recomputing priorities is right exactly when no boosted task has to fall back to priority 0. */
  lemma RecomputeExactlyWhen(s: State)
    requires Containers(s, {})
    ensures PrioritiesInherited(WaitersChanged(s)) <==>
              forall t: TaskId :: Inherited(GraphOf(s))[t] == 0 ==> s.tasks[t].eff == 0
  {
    var v, r := Inherited(GraphOf(s)), WaitersChanged(s);
    forall t: TaskId ensures v[t] < PRIORITY_COUNT { InheritedIsPriority(s, t); }
    ApplyFromExact(s, v, 0);
    ApplyFromWaits(s, v);
    if forall t: TaskId :: v[t] == 0 ==> s.tasks[t].eff == 0 {
      forall t: TaskId ensures Priorities(r)[t] == v[t] { }
      assert Priorities(r) == v;
    }
    if PrioritiesInherited(r) {
      forall t: TaskId | v[t] == 0 ensures s.tasks[t].eff == 0 { assert Priorities(r)[t] == v[t]; }
    }
  }

  /** Idle, running with the inherited priority 3, owns mutex 0, for which task 1 waits. */
  function IdleOwner(): State {
    var s := State(seq(MAX_TASKS, _ => UNUSED_TASK), 2, map[WaitList(MutexList(0)) := [1]], {}, [[], []], 0, 7,
                   Some(0), 0, false, true, Some(0),
                   seq(MAX_SEMAPHORES, _ => Semaphore(false, 0, 0)), seq(MAX_QUEUES, _ => Queue(false, [], 0, 0, 0, 0)),
                   seq(MAX_MUTEXES, i => if i == 0 then Mutex(true, Some(0)) else Mutex(false, None)));
    s.(tasks := s.tasks[0 := UNUSED_TASK.(eff := 3, state := Running, slice := 5)]
                       [1 := UNUSED_TASK.(base := 3, eff := 3, state := BlockedObject, wait := Some(MutexList(0)),
                         deadline := WAIT_FOREVER)])
  }

  lemma IdleKeepsItsBoost(s1: State)
    requires s1 == SetResult(PassOn(IdleOwner(), 0).0, 0, Status.Ok)
    ensures WaitersChanged(s1) == s1
  {
    forall t: TaskId ensures WaitsFor(s1, t) == None { assert At(s1.lists, WaitList(MutexList(0))) == []; }
    NobodyInherits(s1);
    ApplyNoops(s1, Inherited(GraphOf(s1)), 0);
  }

  /** Were Idle to own a mutex, unlocking it would leave Idle at its boosted priority, running
      instead of the ready task it held up. */
  lemma IdleWouldStayBoosted()
    ensures var r := UnlockCurrent(IdleOwner(), Some(0));
            && r.mutexes[0].owner == Some(1) && r.tasks[1].state == Ready
            && r.current == Some(0) && IsIdle(r.tasks[0]) && r.tasks[0].eff == 3
            && !PrioritiesInherited(r)
  {
    var r := MakeReady(SetResult(PassOn(IdleOwner(), 0).0, 0, Status.Ok), 1, Status.Ok);
    IdleUnlocks();
    IdleUnlocked(r);
    BoostedForNobody(r);
  }

  lemma IdleUnlocked(r: State)
    requires r == MakeReady(SetResult(PassOn(IdleOwner(), 0).0, 0, Status.Ok), 1, Status.Ok)
    ensures r.mutexes[0].owner == Some(1) && r.tasks[1].state == Ready && r.current == Some(0)
    ensures IsIdle(r.tasks[0]) && r.tasks[0].eff == 3 && forall t: TaskId :: WaitsFor(r, t) == None
  {
  }

  lemma BoostedForNobody(r: State)
    requires forall t: TaskId :: WaitsFor(r, t) == None
    requires IsIdle(r.tasks[0]) && r.tasks[0].eff == 3
    ensures !PrioritiesInherited(r)
  {
    NobodyInherits(r);
    assert Priorities(r)[0] == 3;
  }

  lemma IdleUnlocks()
    ensures UnlockCurrent(IdleOwner(), Some(0)) ==
            MakeReady(SetResult(PassOn(IdleOwner(), 0).0, 0, Status.Ok), 1, Status.Ok)
  {
    var s1 := SetResult(PassOn(IdleOwner(), 0).0, 0, Status.Ok);
    IdleKeepsItsBoost(s1);
  }
}
