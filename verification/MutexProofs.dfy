/** Locking, unlocking and termination keep priorities inherited and a top task running.
    The code asks only whether the direct owner (lock) or the woken task (unlock) outranks
    the running one; LockTop and HandOffTop show that nobody else can, from the three
    graph theorems of Inheritance. */
module MutexProofs {
  import opened Wrappers
  import opened KernelState
  import opened Sched
  import opened KernelObjects
  import opened Inheritance
  import opened Placement
  import opened DelayLists
  import opened Invariants
  import opened InheritProofs
  import opened SchedProofs
  import opened BlockProofs
  import opened StepProofs
  import opened ObjectProofs

  lemma ObjectsHaveUsers(s: State)
    requires Objects(s) && AllCoherent(s.tasks)
    ensures OwnersAreUsers(s) && IdleUnboosted(s.tasks)
  {
    forall m: MutexId | s.mutexes[m].owner.Some? ensures !IsIdle(s.tasks[s.mutexes[m].owner.value]) {
      assert OwnerFits(s.tasks, s.mutexes[m]);
    }
    forall t: TaskId | IsIdle(s.tasks[t]) ensures s.tasks[t].eff == IDLE_PRIORITY {
      assert Coherent(s.tasks[t]);
    }
  }

  /** Recomputing the priorities settles any state whose containers and objects are in order. */
  lemma RecomputeKeeps(s: State, due: bool)
    requires Containers(s, {}) && Delays(s, due) && AllCoherent(s.tasks) && Objects(s) && PoolFits(s)
    ensures var r := WaitersChanged(s);
            && Containers(r, {}) && Delays(r, due) && AllCoherent(r.tasks) && Objects(r) && PoolFits(r)
            && PrioritiesInherited(r) && Quiet(s, r) && GraphOf(r) == GraphOf(s)
            && r == s.(tasks := r.tasks, lists := r.lists, bitmap := r.bitmap)
    ensures forall t: TaskId :: WaitersChanged(s).tasks[t] == s.tasks[t].(eff := WaitersChanged(s).tasks[t].eff)
    ensures forall t: TaskId :: WaitersChanged(s).tasks[t].eff == Inherited(GraphOf(s))[t]
  {
    ObjectsHaveUsers(s);
    WaitersChangedKeeps(s, {});
    var r := WaitersChanged(s);
    QuietKeepsDelays(s, r, due);
    forall t: TaskId | IsIdle(s.tasks[t]) ensures r.tasks[t].eff == s.tasks[t].eff {
      IdleInheritsNothing(s, t);
    }
    QuietKeepsCoherence(s, r);
    QuietKeepsObjects(s, r);
    QuietKeepsPool(s, r);
  }

  // ----- Lock

  lemma ParkMutexWaits(s: State, c: TaskId, m: MutexId, cell: Message, n: Tick)
    requires Inv(s) && s.current == Some(c) && s.mutexes[m].used
    requires n == WAIT_FOREVER || 1 <= n <= MAX_DELAY_TICKS
    ensures var r := Park(s, c, MutexList(m), cell, n);
            forall t: TaskId :: r.tasks[t].base == s.tasks[t].base
              && WaitsFor(r, t) == if t == c then s.mutexes[m].owner else WaitsFor(s, t)
    ensures WaitsFor(s, c) == None
  {
    ParkKeeps(s, c, MutexList(m), cell, n);
    var r := Park(s, c, MutexList(m), cell, n);
    assert Coherent(s.tasks[c]);
    forall t: TaskId ensures WaitsFor(r, t) == if t == c then s.mutexes[m].owner else WaitsFor(s, t) {
      if t != c { ParkedElsewhere(s, r, c, MutexList(m), t); }
    }
  }

  lemma GraphOfWaits(s: State, r: State, c: TaskId, o: Option<TaskId>)
    requires forall t: TaskId :: r.tasks[t].base == s.tasks[t].base
               && WaitsFor(r, t) == if t == c then o else WaitsFor(s, t)
    ensures GraphOf(r) == GraphOf(s).(next := GraphOf(s).next[c := o])
  {
    assert GraphOf(r).base == GraphOf(s).base;
    assert GraphOf(r).next == GraphOf(s).next[c := o];
  }

  lemma ParkMutexGraph(s: State, c: TaskId, m: MutexId, cell: Message, n: Tick)
    requires Inv(s) && s.current == Some(c) && s.mutexes[m].used
    requires n == WAIT_FOREVER || 1 <= n <= MAX_DELAY_TICKS
    ensures var g := GraphOf(s);
              g.next[c] == None
              && GraphOf(Park(s, c, MutexList(m), cell, n)) == g.(next := g.next[c := s.mutexes[m].owner])
  {
    ParkMutexWaits(s, c, m, cell, n);
    GraphOfWaits(s, Park(s, c, MutexList(m), cell, n), c, s.mutexes[m].owner);
  }

  /** Asking only whether the direct owner outranks the new running task is enough. */
  lemma LockTop(s: State, s2: State, s3: State, c: TaskId, o: TaskId)
    requires PrioritiesInherited(s) && PrioritiesInherited(s3) && SameEff(s, s2) && Highest(s2)
    requires GraphOf(s).next[c] == None && GraphOf(s3) == GraphOf(s).(next := GraphOf(s).next[c := Some(o)])
    requires s3.current == s2.current && forall t: TaskId :: s3.tasks[t].state == s2.tasks[t].state
    requires s3.current.Some? ==> s3.tasks[o].eff <= s3.tasks[s3.current.value].eff
    ensures Highest(s3)
  {
    WaitingStarts(GraphOf(s), GraphOf(s3), c, o);
    assert forall t: TaskId :: Priorities(s)[t] == s.tasks[t].eff && Priorities(s3)[t] == s3.tasks[t].eff;
    forall t: TaskId | s3.tasks[t].state == Ready
      ensures s3.current.Some? && s3.tasks[t].eff <= s3.tasks[s3.current.value].eff {
      assert s2.tasks[t].state == Ready;
      assert s.tasks[t].eff == s2.tasks[t].eff;
    }
  }

  lemma BoostOwnerStep(s: State, s2: State, s3: State, c: TaskId, o: TaskId)
    requires PrioritiesInherited(s) && SameEff(s, s2) && Highest(s2)
    requires GraphOf(s).next[c] == None && GraphOf(s2) == GraphOf(s).(next := GraphOf(s).next[c := Some(o)])
    requires Structure(s2, {}) && Objects(s2) && PoolFits(s2) && OneRuns(s2.tasks, s2.current) && SliceInRange(s2)
    requires s3 == WaitersChanged(s2)
    ensures Inv(if s3.current.Some? && s3.tasks[o].eff > s3.tasks[s3.current.value].eff then Schedule(s3, false)
                else s3)
  {
    RecomputeKeeps(s2, false);
    BoostedKeeps(s2, s3);
    BoostedStep(s3, o);
    if s3.current.Some? ==> s3.tasks[o].eff <= s3.tasks[s3.current.value].eff { LockTop(s, s2, s3, c, o); }
  }

  lemma BoostedKeeps(s2: State, s3: State)
    requires OneRuns(s2.tasks, s2.current) && SliceInRange(s2) && s3.current == s2.current
    requires forall t: TaskId :: s3.tasks[t] == s2.tasks[t].(eff := s3.tasks[t].eff)
    ensures OneRuns(s3.tasks, s3.current) && SliceInRange(s3)
            && forall t: TaskId :: s3.tasks[t].state == s2.tasks[t].state
  {
  }

  lemma BoostedStep(s3: State, o: TaskId)
    requires Settled(s3) && OneRuns(s3.tasks, s3.current) && SliceInRange(s3)
    ensures s3.current.Some? && s3.tasks[o].eff > s3.tasks[s3.current.value].eff ==> Inv(Schedule(s3, false))
    ensures Highest(s3) ==> Inv(s3)
  {
    ScheduleStep(s3, false);
  }

  lemma WaitBlockUnfolds(s: State, l: WaitId, cell: Message, timeout: Tick)
    requires Inv(s) && s.current.Some? && timeout != 0
    ensures WaitBlock(s, l, cell, timeout) == PickNext(Park(s, s.current.value, l, cell, ClampTimeout(timeout)))
  {
    ParkKeeps(s, s.current.value, l, cell, ClampTimeout(timeout));
  }

  lemma SameEffTrans(a: State, b: State, c: State)
    requires SameEff(a, b) && SameEff(b, c)
    ensures SameEff(a, c)
  {
  }

  /** The state in which the next task was picked but priorities are still the old ones. */
  lemma BlockedOnMutex(s: State, m: MutexId, timeout: Tick)
    requires Inv(s) && CurrentRuns(s) && timeout != 0 && !IsIdle(s.tasks[s.current.value])
    requires s.mutexes[m].used && s.mutexes[m].owner.Some? && s.mutexes[m].owner != s.current
    ensures var g, c := GraphOf(s), s.current.value;
            var r := WaitBlock(s, MutexList(m), s.tasks[c].cell, timeout);
            && Structure(r, {}) && Objects(r) && PoolFits(r) && OneRuns(r.tasks, r.current) && SliceInRange(r)
            && Highest(r) && SameEff(s, r)
            && g.next[c] == None && GraphOf(r) == g.(next := g.next[c := s.mutexes[m].owner])
  {
    var c, n, cell := s.current.value, ClampTimeout(timeout), s.tasks[s.current.value].cell;
    var s1, r := Park(s, c, MutexList(m), cell, n), WaitBlock(s, MutexList(m), cell, timeout);
    assert r == PickNext(s1) by { WaitBlockUnfolds(s, MutexList(m), cell, timeout); }
    ParkedOnMutex(s, c, m, cell, n, s1);
    ParkedSwitch(s, s1, r);
  }

  lemma ParkedOnMutex(s: State, c: TaskId, m: MutexId, cell: Message, n: Tick, s1: State)
    requires Inv(s) && s.current == Some(c) && !IsIdle(s.tasks[c])
    requires s.mutexes[m].used && s.mutexes[m].owner.Some? && s.mutexes[m].owner != Some(c)
    requires (n == WAIT_FOREVER || 1 <= n <= MAX_DELAY_TICKS) && s1 == Park(s, c, MutexList(m), cell, n)
    ensures Structure(s1, {}) && NoneRuns(s1.tasks) && Objects(s1) && PoolFits(s1) && SameEff(s, s1) && s1.started
    ensures GraphOf(s).next[c] == None
            && GraphOf(s1) == GraphOf(s).(next := GraphOf(s).next[c := s.mutexes[m].owner])
  {
    assert Structure(s1, {}) && NoneRuns(s1.tasks) && Objects(s1) && PoolFits(s1) by {
      ParkObjects(s, c, MutexList(m), cell, n);
    }
    assert SameEff(s, s1) && s1.started by { ParkKeeps(s, c, MutexList(m), cell, n); }
    ParkMutexGraph(s, c, m, cell, n);
  }

  lemma ParkedSwitch(s: State, s1: State, r: State)
    requires Structure(s1, {}) && Objects(s1) && PoolFits(s1) && NoneRuns(s1.tasks) && s1.started && SameEff(s, s1)
    requires r == PickNext(s1)
    ensures Structure(r, {}) && Objects(r) && PoolFits(r) && OneRuns(r.tasks, r.current) && SliceInRange(r)
    ensures Highest(r) && SameEff(s, r) && GraphOf(r) == GraphOf(s1)
  {
    PickNextKeeps(s1);
    LooseQuiet(s1, r);
    QuietKeepsGraph(s1, r);
    SameEffTrans(s, s1, r);
  }

  lemma LockBlocks(s: State, m: MutexId, timeout: Tick)
    requires Inv(s) && CurrentRuns(s) && timeout != 0 && !IsIdle(s.tasks[s.current.value])
    requires s.mutexes[m].used && s.mutexes[m].owner.Some? && s.mutexes[m].owner != s.current
    ensures Inv(LockCurrent(s, Some(m), timeout))
  {
    var c, o := s.current.value, s.mutexes[m].owner.value;
    var s2 := WaitBlock(s, MutexList(m), s.tasks[c].cell, timeout);
    LockIs(s, m, timeout);
    BlockedOnMutex(s, m, timeout);
    BoostOwnerStep(s, s2, WaitersChanged(s2), c, o);
  }

  lemma LockIs(s: State, m: MutexId, timeout: Tick)
    requires CurrentRuns(s) && timeout != 0 && s.mutexes[m].used && s.mutexes[m].owner.Some?
             && s.mutexes[m].owner != s.current
    ensures LockCurrent(s, Some(m), timeout) ==
            BoostOwner(WaitBlock(s, MutexList(m), s.tasks[s.current.value].cell, timeout), s.mutexes[m].owner.value)
  {
  }

  lemma UnlockIs(s: State, m: MutexId, w: TaskId)
    requires CurrentRuns(s) && s.mutexes[m].used && s.mutexes[m].owner == s.current && PassOn(s, m).1 == Some(w)
    ensures UnlockCurrent(s, Some(m)) ==
            var s2 := WaitersChanged(SetResult(PassOn(s, m).0, s.current.value, Status.Ok));
            MaybePreempt(MakeReady(s2, w, Status.Ok), w)
  {
  }

  /** Scheduling keeps containers and objects in order even while priorities are stale. */
  lemma LooseQuiet(s: State, r: State)
    requires Structure(s, {}) && Objects(s) && PoolFits(s) && Quiet(s, r) && SameEff(s, r)
    requires Containers(r, {}) && (r.started || r.current == None)
    ensures Structure(r, {}) && Objects(r) && PoolFits(r)
  {
    QuietKeepsDelays(s, r, false);
    QuietKeepsCoherence(s, r);
    QuietKeepsObjects(s, r);
    QuietKeepsPool(s, r);
  }

  lemma LockFree(s: State, m: MutexId)
    requires Inv(s) && s.current.Some? && !IsIdle(s.tasks[s.current.value]) && s.mutexes[m].used
             && s.mutexes[m].owner == None
    ensures var c := s.current.value;
            Inv(SetResult(s.(mutexes := s.mutexes[m := s.mutexes[m].(owner := Some(c))]), c, Status.Ok))
  {
    var c := s.current.value;
    var r := SetResult(s.(mutexes := s.mutexes[m := s.mutexes[m].(owner := Some(c))]), c, Status.Ok);
    forall k: MutexId ensures OwnerFits(r.tasks, r.mutexes[k]) { assert OwnerFits(s.tasks, s.mutexes[k]); }
    forall t: TaskId ensures WaitFits(r, t) && WaitsFor(r, t) == WaitsFor(s, t) {
      assert WaitFits(s, t) && Coherent(s.tasks[t]);
    }
    ObjectStep(s, r);
  }

  lemma LockStep(s: State, m: Option<MutexId>, timeout: Tick)
    requires Inv(s) && (s.current.Some? ==> !IsIdle(s.tasks[s.current.value]))
    ensures Inv(LockCurrent(s, m, timeout))
  {
    if CurrentRuns(s) {
      var c := s.current.value;
      if !MutexIsValid(s, m) {
        ResultStep(s, c, InvalidArgument);
      } else if s.mutexes[m.value].owner == None {
        LockFree(s, m.value);
      } else if s.mutexes[m.value].owner == Some(c) {
        ResultStep(s, c, BadState);
      } else if timeout == 0 {
        ResultStep(s, c, Timeout);
      } else {
        LockBlocks(s, m.value, timeout);
      }
    }
  }

  // ----- Unlock

  lemma UnlockStep(s: State, m: Option<MutexId>)
    requires Inv(s)
    ensures Inv(UnlockCurrent(s, m))
  {
    if CurrentRuns(s) {
      var c := s.current.value;
      if !MutexIsValid(s, m) {
        ResultStep(s, c, InvalidArgument);
      } else if s.mutexes[m.value].owner != Some(c) {
        ResultStep(s, c, NotOwner);
      } else if PassOn(s, m.value).1 == None {
        UnlockFreeInv(s, m.value);
        RecomputeQuiet(SetResult(PassOn(s, m.value).0, c, Status.Ok));
      } else {
        UnlockPasses(s, m.value);
      }
    }
  }

  lemma UnlockFreeInv(s: State, m: MutexId)
    requires Inv(s) && CurrentRuns(s) && PassOn(s, m).1 == None
    ensures Inv(SetResult(PassOn(s, m).0, s.current.value, Status.Ok))
  {
    var r := SetResult(PassOn(s, m).0, s.current.value, Status.Ok);
    NobodyWaits(s, MutexList(m));
    forall k: MutexId ensures OwnerFits(r.tasks, r.mutexes[k]) { assert OwnerFits(s.tasks, s.mutexes[k]); }
    forall t: TaskId ensures WaitFits(r, t) && WaitsFor(r, t) == WaitsFor(s, t) { assert WaitFits(s, t); }
    ObjectStep(s, r);
  }

  lemma NobodyInherits(s: State)
    requires forall t: TaskId :: WaitsFor(s, t) == None
    ensures forall t: TaskId :: Inherited(GraphOf(s))[t] == s.tasks[t].base
  {
    forall t: TaskId ensures Inherited(GraphOf(s))[t] == s.tasks[t].base {
      assert forall u: TaskId :: GraphOf(s).next[u] == None;
      UnwaitedKeepsBase(GraphOf(s), t);
    }
  }

  /** A recomputation that asks for nothing new changes nothing. */
  lemma {:induction false} ApplyNoops(s: State, want: seq<nat>, k: nat)
    requires |want| == MAX_TASKS && forall t: TaskId :: want[t] == 0 || want[t] == s.tasks[t].eff
    ensures ApplyFrom(s, want, k) == s
    decreases MAX_TASKS - k
  {
    if k < MAX_TASKS {
      assert SetEffectivePriority(s, k, want[k]) == s;
      ApplyNoops(s, want, k + 1);
    }
  }

  /** Recomputing priorities that are already right changes nothing at all. */
  lemma RecomputeIdempotent(s: State)
    requires PrioritiesInherited(s)
    ensures WaitersChanged(s) == s
  {
    forall t: TaskId ensures Inherited(GraphOf(s))[t] == s.tasks[t].eff { assert Priorities(s)[t] == s.tasks[t].eff; }
    ApplyNoops(s, Inherited(GraphOf(s)), 0);
  }

  /** Recomputing priorities that are already right changes no TCB. */
  lemma RecomputeQuiet(s: State)
    requires Inv(s)
    ensures Inv(WaitersChanged(s)) && WaitersChanged(s).tasks == s.tasks && Quiet(s, WaitersChanged(s))
  {
    RecomputeKeeps(s, false);
    var r := WaitersChanged(s);
    forall t: TaskId ensures r.tasks[t] == s.tasks[t] {
      assert Priorities(s)[t] == s.tasks[t].eff;
    }
  }

  /** The state in which ownership moved to the front waiter w, which is in no list yet. */
  lemma PassedOn(s: State, m: MutexId, w: TaskId)
    requires Inv(s) && CurrentRuns(s) && s.mutexes[m].used && s.mutexes[m].owner == s.current
             && PassOn(s, m).1 == Some(w)
    ensures var r := SetResult(PassOn(s, m).0, s.current.value, Status.Ok);
            && Containers(r, {w}) && Delays(r, false) && AllCoherent(r.tasks)
            && r.tasks == s.tasks[s.current.value := s.tasks[s.current.value].(result := Status.Ok)]
            && r.tasks[w].state == BlockedObject && r.tasks[w].wait == Some(MutexList(m)) && w != s.current.value
            && (forall k: WaitId, u: TaskId :: u in At(r.lists, WaitList(k))
                  <==> u in At(s.lists, WaitList(k)) && u != w)
            && OwnersAreUsers(r) && IdleUnboosted(r.tasks)
  {
    var c, l := s.current.value, MutexList(m);
    WaitPopKeeps(s, l, {});
    WaitPopTakes(s, l, {});
    var p := WaitPop(s, l).0;
    assert {} + {w} == {w};
    SameDelaysKeep(s, p, false);
    var r := SetResult(PassOn(s, m).0, c, Status.Ok);
    assert SameButResults(p.tasks, r.tasks);
    ResultsKeepStructure(p, r, {w});
    ObjectsHaveUsers(s);
    assert WaitFits(s, w);
    forall k: MutexId | r.mutexes[k].owner.Some? ensures !IsIdle(r.tasks[r.mutexes[k].owner.value]) {
      assert OwnerFits(s.tasks, s.mutexes[k]);
    }
    forall t: TaskId | IsIdle(r.tasks[t]) ensures r.tasks[t].eff == IDLE_PRIORITY {
      assert Coherent(s.tasks[t]);
    }
  }

  lemma PassedGraph(s: State, m: MutexId, w: TaskId)
    requires Inv(s) && CurrentRuns(s) && s.mutexes[m].used && s.mutexes[m].owner == s.current
             && PassOn(s, m).1 == Some(w)
    ensures var g, g', c := GraphOf(s), GraphOf(SetResult(PassOn(s, m).0, s.current.value, Status.Ok)), s.current.value;
            && g'.base == g.base
            && g.next[c] == None && g.next[w] == Some(c) && g'.next[w] == None
            && forall t: TaskId :: t != w && g'.next[t] != g.next[t] ==>
                 g.next[t] == Some(c) && g'.next[t] == Some(w) && s.tasks[t].eff <= s.tasks[w].eff
  {
    PassedOn(s, m, w);
    WaitPopTakes(s, MutexList(m), {});
    var r := SetResult(PassOn(s, m).0, s.current.value, Status.Ok);
    assert Coherent(s.tasks[s.current.value]);
    forall t: TaskId
      ensures r.tasks[t].base == s.tasks[t].base
      ensures t != w ==> WaitsFor(r, t) == WaitsFor(s, t) ||
                         (WaitsFor(s, t) == s.current && WaitsFor(r, t) == Some(w) && s.tasks[t].eff <= s.tasks[w].eff)
    {
      if t != w && s.tasks[t].wait == Some(MutexList(m)) {
        assert Coherent(s.tasks[t]);
      }
    }
    assert GraphOf(r).base == GraphOf(s).base;
  }

  /** After the hand-off either the caller kept its priority or the new owner outranks it. */
  lemma HandOffTop(s: State, m: MutexId, w: TaskId)
    requires Inv(s) && CurrentRuns(s) && s.mutexes[m].used && s.mutexes[m].owner == s.current
             && PassOn(s, m).1 == Some(w)
    ensures var v, v', c :=
              Inherited(GraphOf(s)), Inherited(GraphOf(SetResult(PassOn(s, m).0, s.current.value, Status.Ok))),
              s.current.value;
            && (forall t: TaskId :: v'[t] <= v[t] == s.tasks[t].eff)
            && (v'[c] == v[c] || v'[w] == v[c] > v'[c])
  {
    PassedGraph(s, m, w);
    HandOffLevels(s, GraphOf(s), GraphOf(SetResult(PassOn(s, m).0, s.current.value, Status.Ok)), s.current.value, w);
  }

  lemma HandOffLevels(s: State, g: Graph, g': Graph, c: TaskId, w: TaskId)
    requires PrioritiesInherited(s) && g == GraphOf(s) && WellFormed(g') && g'.base == g.base
    requires g.next[c] == None && g.next[w] == Some(c) && g'.next[w] == None
    requires forall t: TaskId :: t != w && g'.next[t] != g.next[t] ==>
               g.next[t] == Some(c) && g'.next[t] == Some(w) && s.tasks[t].eff <= s.tasks[w].eff
    ensures var v, v' := Inherited(g), Inherited(g');
            && (forall t: TaskId :: v'[t] <= v[t] == s.tasks[t].eff)
            && (v'[c] == v[c] || v'[w] == v[c] > v'[c])
  {
    GraphIsWellFormed(s);
    assert forall t: TaskId :: Inherited(g)[t] == s.tasks[t].eff by {
      assert forall t: TaskId :: Priorities(s)[t] == s.tasks[t].eff;
    }
    forall t: nat | t < |g.base| && t != w && g'.next[t] != g.next[t]
      ensures g.next[t] == Some(c) && g'.next[t] == Some(w) && Inherited(g)[t] <= Inherited(g)[w]
    {
      var u: TaskId := t;
      assert s.tasks[u].eff <= s.tasks[w].eff;
    }
    OwnershipMoves(g, g', c, w);
  }

  /** What recomputing priorities and then waking w does to a state s in which w is in no list. */
  ghost predicate Delivered(s: State, w: TaskId, r: State) {
    && Containers(r, {}) && Delays(r, false) && AllCoherent(r.tasks)
    && (forall t: TaskId ::
          r.tasks[t] == (if t == w then Woken(s.tasks[w], Status.Ok).(delayList := None) else s.tasks[t])
                                          .(eff := r.tasks[t].eff))
    && (forall t: TaskId :: r.tasks[t].eff == Inherited(GraphOf(s))[t])
    && (forall k: WaitId, u: TaskId :: u in At(r.lists, WaitList(k)) <==> u in At(s.lists, WaitList(k)))
    && r == s.(tasks := r.tasks, lists := r.lists, bitmap := r.bitmap, delayed := r.delayed)
  }

  lemma DeliveredCoherent(s: State, w: TaskId, r: State)
    requires AllCoherent(s.tasks) && OwnersAreUsers(s) && s.tasks[w].state == BlockedObject
    requires forall t: TaskId ::
               r.tasks[t] == (if t == w then Woken(s.tasks[w], Status.Ok).(delayList := None) else s.tasks[t])
                                               .(eff := r.tasks[t].eff)
    requires forall t: TaskId :: r.tasks[t].eff == Inherited(GraphOf(s))[t]
    ensures AllCoherent(r.tasks)
  {
    forall t: TaskId ensures Coherent(r.tasks[t]) {
      assert Coherent(s.tasks[t]);
      if IsIdle(s.tasks[t]) { IdleInheritsNothing(s, t); }
    }
  }

  lemma Deliver(s: State, w: TaskId)
    requires Containers(s, {w}) && Delays(s, false) && AllCoherent(s.tasks) && OwnersAreUsers(s)
             && IdleUnboosted(s.tasks)
    requires s.tasks[w].state == BlockedObject
    ensures Delivered(s, w, MakeReady(WaitersChanged(s), w, Status.Ok))
  {
    WaitersChangedKeeps(s, {w});
    var s2 := WaitersChanged(s);
    QuietKeepsDelays(s, s2, false);
    Wake(s, w, s2, MakeReady(s2, w, Status.Ok));
  }

  lemma Wake(s: State, w: TaskId, s2: State, r: State)
    requires AllCoherent(s.tasks) && OwnersAreUsers(s) && s.tasks[w].state == BlockedObject
             && r == MakeReady(s2, w, Status.Ok)
    requires Containers(s2, {w}) && Delays(s2, false) && SameWaiters(s, s2)
             && s2 == s.(tasks := s2.tasks, lists := s2.lists, bitmap := s2.bitmap)
    requires forall t: TaskId :: s2.tasks[t] == s.tasks[t].(eff := s2.tasks[t].eff)
               && s2.tasks[t].eff == Inherited(GraphOf(s))[t]
    ensures Delivered(s, w, r)
  {
    MakeReadyKeeps(s2, w, Status.Ok, {w}, false);
    assert {w} - {w} == {};
    DeliveredCoherent(s, w, r);
  }

  lemma HandOff(s: State, m: MutexId, w: TaskId, s1: State, r: State)
    requires Inv(s) && CurrentRuns(s) && s.mutexes[m].used && s.mutexes[m].owner == s.current
             && PassOn(s, m).1 == Some(w)
    requires s1 == SetResult(PassOn(s, m).0, s.current.value, Status.Ok)
    requires r == MakeReady(WaitersChanged(s1), w, Status.Ok)
    ensures Settled(r) && OneRuns(r.tasks, r.current) && SliceInRange(r) && ReadyToPreempt(r, w)
  {
    PassedOn(s, m, w);
    Deliver(s1, w);
    HandOffTop(s, m, w);
    PassedFrame(s, m, w, s1);
    HandOffSettled(s, s1, m, w, r);
    HandOffReady(s, s1, m, w, r);
  }

  lemma UnlockPasses(s: State, m: MutexId)
    requires Inv(s) && CurrentRuns(s) && s.mutexes[m].used && s.mutexes[m].owner == s.current && PassOn(s, m).1.Some?
    ensures Inv(UnlockCurrent(s, Some(m)))
  {
    var w := PassOn(s, m).1.value;
    var s1 := SetResult(PassOn(s, m).0, s.current.value, Status.Ok);
    var r := MakeReady(WaitersChanged(s1), w, Status.Ok);
    HandOff(s, m, w, s1, r);
    MaybePreemptStep(r, w);
    assert UnlockCurrent(s, Some(m)) == MaybePreempt(r, w);
  }

  lemma HandOffPool(s: State, s1: State, w: TaskId, r: State)
    requires PoolFits(s) && OneRuns(s.tasks, s.current) && SliceInRange(s) && s.tasks[w].state == BlockedObject
    requires SameButResults(s.tasks, s1.tasks) && s1 == s.(tasks := s1.tasks, lists := s1.lists, mutexes := s1.mutexes)
    requires Delivered(s1, w, r)
    ensures PoolFits(r) && OneRuns(r.tasks, r.current) && SliceInRange(r)
  {
    forall t: TaskId
      ensures r.tasks[t].base == s.tasks[t].base && r.tasks[t].slice == s.tasks[t].slice
      ensures r.tasks[t].state == if t == w then Ready else s.tasks[t].state
    {
    }
    PoolTransfer(s, r);
  }

  lemma PassedFrame(s: State, m: MutexId, w: TaskId, s1: State)
    requires CurrentRuns(s) && PassOn(s, m).1 == Some(w) && s1 == SetResult(PassOn(s, m).0, s.current.value, Status.Ok)
    ensures SameButResults(s.tasks, s1.tasks)
    ensures s1 == s.(tasks := s1.tasks, lists := s1.lists, mutexes := s.mutexes[m := s.mutexes[m].(owner := Some(w))])
  {
  }

  lemma HandOffSettled(s: State, s1: State, m: MutexId, w: TaskId, r: State)
    requires Inv(s) && s.mutexes[m].used && SameButResults(s.tasks, s1.tasks) && Delivered(s1, w, r)
    requires s1 == s.(tasks := s1.tasks, lists := s1.lists, mutexes := s.mutexes[m := s.mutexes[m].(owner := Some(w))])
    requires s.tasks[w].state == BlockedObject && s.tasks[w].wait == Some(MutexList(m))
    requires forall k: WaitId :: w !in At(s1.lists, WaitList(k))
    ensures Settled(r) && OneRuns(r.tasks, r.current) && SliceInRange(r)
  {
    forall t: TaskId
      ensures r.tasks[t].base == s.tasks[t].base && r.tasks[t].wait == if t == w then None else s.tasks[t].wait
      ensures IsAlive(s.tasks[t]) ==> IsAlive(r.tasks[t])
    {
    }
    UnlockObjects(s, m, w, r);
    UnlockPriorities(s1, r, w);
    HandOffPool(s, s1, w, r);
  }

  lemma HandOffReady(s: State, s1: State, m: MutexId, w: TaskId, r: State)
    requires Inv(s) && CurrentRuns(s) && w != s.current.value
    requires s1 == SetResult(PassOn(s, m).0, s.current.value, Status.Ok) && Delivered(s1, w, r)
    requires var v, v', c := Inherited(GraphOf(s)), Inherited(GraphOf(s1)), s.current.value;
             && (forall t: TaskId :: v'[t] <= v[t] == s.tasks[t].eff)
             && (v'[c] == v[c] || v'[w] == v[c] > v'[c])
    ensures ReadyToPreempt(r, w)
  {
    if !r.pending && r.tasks[w].eff <= r.tasks[r.current.value].eff && r.started {
      forall t: TaskId | r.tasks[t].state == Ready ensures r.tasks[t].eff <= r.tasks[r.current.value].eff {
        if t != w { assert s.tasks[t].state == Ready; }
      }
    }
  }

  lemma UnlockObjects(s: State, m: MutexId, w: TaskId, r: State)
    requires Objects(s) && s.mutexes[m].used && s.tasks[w].wait == Some(MutexList(m)) && IsAlive(s.tasks[w])
    requires r.sems == s.sems && r.queues == s.queues && r.mutexes == s.mutexes[m := s.mutexes[m].(owner := Some(w))]
    requires forall t: TaskId :: r.tasks[t].base == s.tasks[t].base && (IsAlive(s.tasks[t]) ==> IsAlive(r.tasks[t]))
    requires forall t: TaskId :: r.tasks[t].wait == if t == w then None else s.tasks[t].wait
    ensures Objects(r)
  {
    assert WaitFits(s, w);
    forall k: MutexId ensures OwnerFits(r.tasks, r.mutexes[k]) { assert OwnerFits(s.tasks, s.mutexes[k]); }
    forall t: TaskId ensures WaitFits(r, t) { assert WaitFits(s, t); }
  }

  lemma UnlockPriorities(s1: State, r: State, w: TaskId)
    requires r.mutexes == s1.mutexes
    requires forall t: TaskId :: r.tasks[t].base == s1.tasks[t].base && r.tasks[t].eff == Inherited(GraphOf(s1))[t]
    requires forall t: TaskId :: t != w ==> r.tasks[t].wait == s1.tasks[t].wait
    requires forall k: WaitId :: w !in At(s1.lists, WaitList(k))
    requires forall k: WaitId, u: TaskId :: u in At(r.lists, WaitList(k)) <==> u in At(s1.lists, WaitList(k))
    ensures PrioritiesInherited(r)
  {
    forall t: TaskId ensures WaitsFor(r, t) == WaitsFor(s1, t) {
    }
    assert GraphOf(r).base == GraphOf(s1).base;
    assert GraphOf(r).next == GraphOf(s1).next;
    assert Priorities(r) == Inherited(GraphOf(s1));
  }

  // ----- Termination

  /** Everything except priorities and the choice of the running task. */
  ghost predicate Orderly(s: State, c: TaskId) {
    Structure(s, {}) && Objects(s) && PoolFits(s) && OneRuns(s.tasks, Some(c)) && s.current == Some(c)
  }

  lemma PassOnFree(s: State, c: TaskId, m: MutexId)
    requires Orderly(s, c) && PassOn(s, m).1 == None
    ensures Orderly(PassOn(s, m).0, c)
  {
    var r := PassOn(s, m).0;
    WaitPopTakes(s, MutexList(m), {});
    forall k: MutexId ensures OwnerFits(r.tasks, r.mutexes[k]) { assert OwnerFits(s.tasks, s.mutexes[k]); }
    forall t: TaskId ensures WaitFits(r, t) { assert WaitFits(s, t) && Coherent(s.tasks[t]); }
  }

  lemma PassOnServes(s: State, c: TaskId, m: MutexId, w: TaskId)
    requires Orderly(s, c) && s.mutexes[m].used && PassOn(s, m).1 == Some(w)
    ensures w != c
    ensures s.tasks[w].state == BlockedObject && s.tasks[w].wait == Some(MutexList(m))
    ensures var r := MakeReady(PassOn(s, m).0, w, Status.Ok);
            && Orderly(r, c) && r.tasks == s.tasks[w := Woken(s.tasks[w], Status.Ok).(delayList := None)]
            && r == s.(tasks := r.tasks, lists := r.lists, bitmap := r.bitmap, delayed := r.delayed,
                       mutexes := s.mutexes[m := s.mutexes[m].(owner := Some(w))])
            && (forall k: WaitId :: k != MutexList(m) ==> At(r.lists, WaitList(k)) == At(s.lists, WaitList(k)))
  {
    var s1 := PassOn(s, m).0;
    ServeKeeps(s, MutexList(m), s1, w);
    HeirOrderly(s, c, m, w, MakeReady(s1, w, Status.Ok));
  }

  /** The heir of a mutex is awake and owns it; everything else is in order. */
  lemma HeirOrderly(s: State, c: TaskId, m: MutexId, w: TaskId, r: State)
    requires Orderly(s, c) && s.mutexes[m].used && s.tasks[w].state == BlockedObject
             && s.tasks[w].wait == Some(MutexList(m))
    requires Containers(r, {}) && Delays(r, false)
    requires r.tasks == s.tasks[w := Woken(s.tasks[w], Status.Ok).(delayList := None)]
    requires r == s.(tasks := r.tasks, lists := r.lists, bitmap := r.bitmap, delayed := r.delayed,
                     mutexes := s.mutexes[m := s.mutexes[m].(owner := Some(w))])
    ensures Orderly(r, c)
  {
    ServeCoherent(s, s, r, w);
    UnlockObjects(s, m, w, r);
    PoolTransfer(s, r);
  }

  lemma ReleaseOneKeeps(s: State, c: TaskId, m: MutexId)
    requires Orderly(s, c)
    ensures var r := ReleaseOne(s, c, m);
            && Orderly(r, c) && r.tasks[c] == s.tasks[c] && r.mutexes[m].owner != Some(c)
            && (!Owns(s, c, m) ==> r == s)
  {
    assert OwnerFits(s.tasks, s.mutexes[m]);
    if Owns(s, c, m) {
      var w := PassOn(s, m).1;
      if w.Some? { PassOnServes(s, c, m, w.value); } else { PassOnFree(s, c, m); }
    }
  }

  /** Releasing leaves the task without mutexes and everything else in order. */
  lemma {:induction false} ReleaseFromKeeps(s: State, c: TaskId, k: nat)
    requires Orderly(s, c)
    ensures var r := ReleaseFrom(s, c, k);
            && Orderly(r, c) && r.tasks[c] == s.tasks[c]
            && (forall m: MutexId :: r.mutexes[m].owner == Some(c) ==> m < k && s.mutexes[m].owner == Some(c))
            && ((forall m: MutexId :: m >= k ==> !Owns(s, c, m)) ==> r == s)
    decreases MAX_MUTEXES - k
  {
    if k < MAX_MUTEXES {
      ReleaseOneKeeps(s, c, k);
      ReleaseFromKeeps(ReleaseOne(s, c, k), c, k + 1);
    }
  }

  lemma ReleaseTaskKeeps(s: State, c: TaskId)
    requires Inv(s) && s.current == Some(c)
    ensures var r := ReleaseTask(s, c);
            && Settled(r) && OneRuns(r.tasks, Some(c)) && r.current == Some(c)
            && forall m: MutexId :: r.mutexes[m].owner != Some(c)
  {
    ReleaseFromKeeps(s, c, 0);
    ReleasedKeeps(s, c, ReleaseFrom(s, c, 0), ReleaseTask(s, c));
  }

  lemma ReleasedKeeps(s: State, c: TaskId, s1: State, r: State)
    requires Inv(s) && Orderly(s1, c) && s1 == ReleaseFrom(s, c, 0) && r == ReleaseTask(s, c)
    requires (forall m: MutexId :: s1.mutexes[m].owner != Some(c))
             && ((forall m: MutexId :: !Owns(s, c, m)) ==> s1 == s)
    ensures Settled(r) && OneRuns(r.tasks, Some(c)) && r.current == Some(c)
            && forall m: MutexId :: r.mutexes[m].owner != Some(c)
  {
    if exists m: MutexId :: Owns(s, c, m) { RecomputeKeeps(s1, false); }
  }

  lemma RetireSettled(s: State, c: TaskId)
    requires Settled(s) && OneRuns(s.tasks, Some(c)) && s.current == Some(c)
             && forall m: MutexId :: s.mutexes[m].owner != Some(c)
    ensures var r := SetTask(s, c, s.tasks[c].(state := Terminated)); Settled(r) && NoneRuns(r.tasks)
  {
    var task := s.tasks[c].(state := Terminated);
    var r := SetTask(s, c, task);
    HomelessIsFree(s, c, {});
    RetaskKeeps(s, c, task, {c});
    assert {} + {c} == {c} && {c} - {c} == {};
    SameDelaysKeep(s, r, false);
    forall t: TaskId ensures Coherent(r.tasks[t]) && WaitFits(r, t) && WaitsFor(r, t) == WaitsFor(s, t) {
      assert Coherent(s.tasks[t]) && WaitFits(s, t);
    }
    forall k: MutexId ensures OwnerFits(r.tasks, r.mutexes[k]) { assert OwnerFits(s.tasks, s.mutexes[k]); }
    SameGraph(s, r);
    PoolTransfer(s, r);
  }

  lemma TerminateStep(s: State)
    requires Inv(s)
    ensures Inv(TerminateCurrent(s))
    ensures CurrentRuns(s) ==> Highest(TerminateCurrent(s))
  {
    if CurrentRuns(s) {
      var c := s.current.value;
      ReleaseTaskKeeps(s, c);
      var s1 := ReleaseTask(s, c);
      RetireSettled(s1, c);
      SwitchAwayStep(SetTask(s1, c, s1.tasks[c].(state := Terminated)));
    }
  }
}
