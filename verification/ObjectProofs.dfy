/** Semaphore and queue calls keep the invariant.
    Serving the front waiter is the common core: it leaves its list, some results and
    buffers are written while it is in no list, and it becomes ready; then the caller may
    lose the processor to it. */
module ObjectProofs {
  import opened Wrappers
  import opened KernelState
  import opened Sched
  import opened KernelObjects
  import opened Placement
  import opened DelayLists
  import opened Invariants
  import opened SchedProofs
  import opened BlockProofs
  import opened StepProofs
  import opened QueueRing

  // ----- Waiting for a semaphore or a queue

  lemma ParkObjects(s: State, c: TaskId, l: WaitId, cell: Message, n: Tick)
    requires Inv(s) && s.current == Some(c) && FitsAt(s, c, Some(l))
    requires n == WAIT_FOREVER || 1 <= n <= MAX_DELAY_TICKS
    ensures Structure(Park(s, c, l, cell, n), {}) && NoneRuns(Park(s, c, l, cell, n).tasks)
    ensures Objects(Park(s, c, l, cell, n)) && PoolFits(Park(s, c, l, cell, n))
  {
    var r := Park(s, c, l, cell, n);
    ParkKeeps(s, c, l, cell, n);
    assert AllCoherent(r.tasks) && NoneRuns(r.tasks) by { ParkCoherent(s, c, l, cell, n); }
    assert Objects(r) by { ObjectsTransfer(s, r); }
  }

  lemma ParkPlainGraph(s: State, c: TaskId, l: WaitId, cell: Message, n: Tick)
    requires Inv(s) && s.current == Some(c) && !l.MutexList?
    requires n == WAIT_FOREVER || 1 <= n <= MAX_DELAY_TICKS
    ensures PrioritiesInherited(Park(s, c, l, cell, n))
  {
    ParkKeeps(s, c, l, cell, n);
    var r := Park(s, c, l, cell, n);
    assert Coherent(s.tasks[c]);
    forall t: TaskId ensures WaitsFor(r, t) == WaitsFor(s, t) {
      if t != c { ParkedElsewhere(s, r, c, l, t); }
    }
    SameGraph(s, r);
  }

  lemma ParkedElsewhere(s: State, r: State, c: TaskId, l: WaitId, t: TaskId)
    requires r.tasks[t] == s.tasks[t] && r.mutexes == s.mutexes && t != c
    requires forall k: WaitId, u: TaskId :: u in At(r.lists, WaitList(k))
               <==> u in At(s.lists, WaitList(k)) || (k == l && u == c)
    ensures WaitsFor(r, t) == WaitsFor(s, t)
  {
  }

  lemma WaitBlockStep(s: State, l: WaitId, cell: Message, timeout: Tick)
    requires Inv(s) && s.current.Some? && !l.MutexList? && timeout != 0 && FitsAt(s, s.current.value, Some(l))
    ensures Inv(WaitBlock(s, l, cell, timeout))
  {
    var c, n := s.current.value, ClampTimeout(timeout);
    ParkObjects(s, c, l, cell, n);
    ParkPlainGraph(s, c, l, cell, n);
    ParkKeeps(s, c, l, cell, n);
    SwitchAwayStep(Park(s, c, l, cell, n));
  }

  // ----- Serving the front waiter

  /** Taking the front waiter off its list, changing some results and buffers, and making it ready. */
  lemma ServeKeeps(s: State, l: WaitId, s1: State, w: TaskId)
    requires Structure(s, {}) && WaitPop(s, l).1 == Some(w)
    requires var p := WaitPop(s, l).0;
             SameButResults(p.tasks, s1.tasks)
               && s1 == p.(tasks := s1.tasks, sems := s1.sems, queues := s1.queues, mutexes := s1.mutexes)
    ensures var r := MakeReady(s1, w, Status.Ok);
            && Containers(r, {}) && Delays(r, false)
            && r.tasks == s1.tasks[w := Woken(s1.tasks[w], Status.Ok).(delayList := None)]
            && (forall k: WaitId, u: TaskId :: u in At(r.lists, WaitList(k))
                  <==> u in At(s.lists, WaitList(k)) && u != w)
            && (forall k: WaitId :: k != l ==> At(r.lists, WaitList(k)) == At(s.lists, WaitList(k)))
    ensures s.tasks[w].state == BlockedObject && s.tasks[w].wait == Some(l)
  {
    WaitPopKeeps(s, l, {});
    WaitPopTakes(s, l, {});
    var p := WaitPop(s, l).0;
    assert {} + {w} == {w} && {w} - {w} == {};
    SameDelaysKeep(s, p, false);
    ResultsKeepStructure(p, s1, {w});
    assert s1.tasks[w].state == BlockedObject;
    MakeReadyKeeps(s1, w, Status.Ok, {w}, false);
  }

  lemma ServedElsewhere(s: State, r: State, w: TaskId, t: TaskId)
    requires r.tasks[t].wait == s.tasks[t].wait && r.mutexes == s.mutexes && t != w
    requires forall k: WaitId, u: TaskId :: u in At(r.lists, WaitList(k)) <==> u in At(s.lists, WaitList(k)) && u != w
    ensures WaitsFor(r, t) == WaitsFor(s, t)
  {
  }

  lemma ServeCoherent(s: State, s1: State, r: State, w: TaskId)
    requires AllCoherent(s.tasks) && SameButResults(s.tasks, s1.tasks) && s.tasks[w].state == BlockedObject
    requires r.tasks == s1.tasks[w := Woken(s1.tasks[w], Status.Ok).(delayList := None)]
    ensures AllCoherent(r.tasks)
  {
    forall t: TaskId ensures Coherent(r.tasks[t]) {
      assert Coherent(s.tasks[t]);
    }
  }

  lemma ServePriorities(s: State, r: State, w: TaskId)
    requires PrioritiesInherited(s) && r.mutexes == s.mutexes
    requires forall t: TaskId :: r.tasks[t].base == s.tasks[t].base && r.tasks[t].eff == s.tasks[t].eff
    requires forall t: TaskId :: t != w ==> r.tasks[t].wait == s.tasks[t].wait
    requires s.tasks[w].wait.Some? && !s.tasks[w].wait.value.MutexList? && r.tasks[w].wait == None
    requires forall k: WaitId, u: TaskId :: u in At(r.lists, WaitList(k)) <==> u in At(s.lists, WaitList(k)) && u != w
    ensures PrioritiesInherited(r)
  {
    forall t: TaskId ensures WaitsFor(r, t) == WaitsFor(s, t) {
      if t != w { ServedElsewhere(s, r, w, t); }
    }
    SameGraph(s, r);
  }

  lemma ServeSettled(s: State, l: WaitId, s1: State, w: TaskId)
    requires Inv(s) && WaitPop(s, l).1 == Some(w) && !l.MutexList?
    requires var p := WaitPop(s, l).0;
             SameButResults(p.tasks, s1.tasks) && s1 == p.(tasks := s1.tasks, sems := s1.sems, queues := s1.queues)
    requires Objects(MakeReady(s1, w, Status.Ok))
    ensures var r := MakeReady(s1, w, Status.Ok); Settled(r) && OneRuns(r.tasks, r.current) && SliceInRange(r)
  {
    ServeKeeps(s, l, s1, w);
    var r := MakeReady(s1, w, Status.Ok);
    assert AllCoherent(r.tasks) by { ServeCoherent(s, s1, r, w); }
    forall t: TaskId ensures r.tasks[t].base == s.tasks[t].base && r.tasks[t].eff == s.tasks[t].eff &&
                             (t != w ==> r.tasks[t].wait == s.tasks[t].wait && r.tasks[t].state == s.tasks[t].state) {
      assert s1.tasks[t] == s.tasks[t].(result := s1.tasks[t].result, cell := s1.tasks[t].cell);
    }
    assert PrioritiesInherited(r) by { ServePriorities(s, r, w); }
    assert PoolFits(r) by { PoolTransfer(s, r); }
  }

  /** The running task is still on top, or the served waiter is known to outrank it. */
  ghost predicate ReadyToPreempt(s: State, w: TaskId) {
    s.pending || s.current == None || s.tasks[w].eff > s.tasks[s.current.value].eff || TopRuns(s)
  }

  lemma ServeReadyToPreempt(s: State, l: WaitId, s1: State, w: TaskId)
    requires Inv(s) && WaitPop(s, l).1 == Some(w)
    requires var p := WaitPop(s, l).0;
             SameButResults(p.tasks, s1.tasks)
               && s1 == p.(tasks := s1.tasks, sems := s1.sems, queues := s1.queues, mutexes := s1.mutexes)
    ensures ReadyToPreempt(MakeReady(s1, w, Status.Ok), w)
  {
    ServeKeeps(s, l, s1, w);
    var r := MakeReady(s1, w, Status.Ok);
    if !r.pending && r.current.Some? && r.tasks[w].eff <= r.tasks[r.current.value].eff && r.started {
      forall t: TaskId | r.tasks[t].state == Ready ensures r.tasks[t].eff <= r.tasks[r.current.value].eff {
        if t != w { assert s.tasks[t].state == Ready; }
      }
    }
  }

  /** The objects still fit after a waiter was served. */
  lemma ServeObjects(s: State, l: WaitId, s1: State, w: TaskId)
    requires Inv(s) && WaitPop(s, l).1 == Some(w) && !l.MutexList?
    requires var p := WaitPop(s, l).0;
             SameButResults(p.tasks, s1.tasks) && s1 == p.(tasks := s1.tasks, sems := s1.sems, queues := s1.queues)
    requires forall i: SemId :: s1.sems[i] == s.sems[i]
    requires forall i: QueueId :: QueueFits(s1.queues[i])
               && s1.queues[i] ==
               s.queues[i].(buffer := s1.queues[i].buffer, head := s1.queues[i].head, tail := s1.queues[i].tail)
    ensures Objects(MakeReady(s1, w, Status.Ok))
  {
    ServeKeeps(s, l, s1, w);
    var r := MakeReady(s1, w, Status.Ok);
    forall m: MutexId ensures OwnerFits(r.tasks, r.mutexes[m]) {
      assert OwnerFits(s.tasks, s.mutexes[m]);
    }
    forall i: SemId ensures SemFits(r.sems[i]) {
      assert SemFits(s.sems[i]);
    }
    forall t: TaskId ensures WaitFits(r, t) {
      assert WaitFits(s, t);
    }
  }

  /** Serving the front waiter of a queue list keeps the invariant; counts must not change. */
  lemma ServeQueueStep(s: State, l: WaitId, s1: State, w: TaskId)
    requires Inv(s) && WaitPop(s, l).1 == Some(w) && !l.MutexList?
    requires var p := WaitPop(s, l).0;
             SameButResults(p.tasks, s1.tasks) && s1 == p.(tasks := s1.tasks, queues := s1.queues)
    requires forall i: QueueId :: QueueFits(s1.queues[i])
               && s1.queues[i] ==
               s.queues[i].(buffer := s1.queues[i].buffer, head := s1.queues[i].head, tail := s1.queues[i].tail)
    ensures Inv(Serve(s1, w)) && Quiet(MakeReady(s1, w, Status.Ok), Serve(s1, w))
  {
    ServeObjects(s, l, s1, w);
    ServeSettled(s, l, s1, w);
    ServeReadyToPreempt(s, l, s1, w);
    MaybePreemptStep(MakeReady(s1, w, Status.Ok), w);
  }

  lemma NobodyWaits(s: State, l: WaitId)
    requires Inv(s) && WaitPop(s, l).1 == None
    ensures forall t: TaskId :: s.tasks[t].wait != Some(l)
  {
    WaitPopTakes(s, l, {});
    forall t: TaskId ensures s.tasks[t].wait != Some(l) { assert Coherent(s.tasks[t]); }
  }

  // ----- Semaphores

  lemma TakeStep(s: State, i: Option<SemId>, timeout: Tick)
    requires Inv(s)
    ensures Inv(TakeCurrent(s, i, timeout))
  {
    if CurrentRuns(s) {
      var c := s.current.value;
      if !SemIsValid(s, i) {
        ResultStep(s, c, InvalidArgument);
      } else if s.sems[i.value].count > 0 {
        TakeUnitStep(s, i.value, c);
      } else if timeout == 0 {
        ResultStep(s, c, Timeout);
      } else {
        WaitBlockStep(s, SemList(i.value), s.tasks[c].cell, timeout);
      }
    }
  }

  lemma TakeUnitStep(s: State, i: SemId, c: TaskId)
    requires Inv(s) && s.current == Some(c) && SemIsValid(s, Some(i)) && s.sems[i].count > 0
    ensures Inv(SetResult(SetSem(s, i, s.sems[i].count - 1), c, Status.Ok))
  {
    CountStep(s, i, s.sems[i].count - 1);
    ResultStep(SetSem(s, i, s.sems[i].count - 1), c, Status.Ok);
  }

  /** Changing a count nobody waits for. */
  lemma CountStep(s: State, i: SemId, count: Tick)
    requires Inv(s) && (s.sems[i].count > 0 || forall t: TaskId :: s.tasks[t].wait != Some(SemList(i)))
    requires count <= s.sems[i].maximum
    ensures Inv(SetSem(s, i, count))
  {
    var r := SetSem(s, i, count);
    assert SemFits(s.sems[i]);
    forall j: SemId ensures SemFits(r.sems[j]) { assert SemFits(s.sems[j]); }
    forall m: MutexId ensures OwnerFits(r.tasks, r.mutexes[m]) { assert OwnerFits(s.tasks, s.mutexes[m]); }
    forall t: TaskId ensures WaitFits(r, t) && WaitsFor(r, t) == WaitsFor(s, t) { assert WaitFits(s, t); }
    assert SameButResults(s.tasks, r.tasks);
    ObjectStep(s, r);
  }

  lemma GiveServes(s: State, i: SemId, w: TaskId)
    requires Inv(s) && WaitPop(s, SemList(i)).1 == Some(w)
    ensures var r := MakeReady(WaitPop(s, SemList(i)).0, w, Status.Ok);
            Settled(r) && OneRuns(r.tasks, r.current) && SliceInRange(r) && ReadyToPreempt(r, w)
  {
    var l := SemList(i);
    var s1 := WaitPop(s, l).0;
    assert SameButResults(s1.tasks, s1.tasks);
    assert forall k: QueueId :: QueueFits(s.queues[k]);
    ServeObjects(s, l, s1, w);
    ServeSettled(s, l, s1, w);
    ServeReadyToPreempt(s, l, s1, w);
  }

  lemma GiveAnySettled(s: State, i: Option<SemId>)
    requires Inv(s)
    ensures var (r, _, w) := GiveAny(s, i);
            && Settled(r) && OneRuns(r.tasks, r.current) && SliceInRange(r)
            && r.current == s.current && r.nesting == s.nesting
            && (if w.Some? then ReadyToPreempt(r, w.value) else Inv(r))
  {
    if SemIsValid(s, i) {
      var w := WaitPop(s, SemList(i.value)).1;
      if w.Some? {
        GiveServes(s, i.value, w.value);
      } else if s.sems[i.value].count < s.sems[i.value].maximum {
        NobodyWaits(s, SemList(i.value));
        CountStep(s, i.value, s.sems[i.value].count + 1);
      }
    }
  }

  lemma GiveStep(s: State, i: Option<SemId>)
    requires Inv(s)
    ensures Inv(GiveCurrent(s, i))
  {
    if CurrentRuns(s) {
      GiveAnySettled(s, i);
      GaveStep(s.current.value, GiveAny(s, i).0, GiveAny(s, i).1, GiveAny(s, i).2);
    }
  }

  /** The caller is told the status, and the woken task may preempt it. */
  lemma GaveStep(c: TaskId, s1: State, status: Status, w: Option<TaskId>)
    requires Settled(s1) && OneRuns(s1.tasks, s1.current) && SliceInRange(s1) && s1.current == Some(c)
    requires if w.Some? then ReadyToPreempt(s1, w.value) else Inv(s1)
    ensures var s2 := SetResult(s1, c, status);
            var r := if w.Some? then MaybePreempt(s2, w.value) else s2;
            Inv(r) && Quiet(s2, r)
  {
    SetResultSettled(s1, c, status);
    if w.Some? { MaybePreemptStep(SetResult(s1, c, status), w.value); }
  }

  lemma GiveFromIsrStep(s: State, i: Option<SemId>)
    requires Inv(s)
    ensures Inv(GiveFromIsr(s, i))
  {
    EnterStep(s);
    var (s1, _, w) := GiveAny(EnterCritical(s), i);
    GiveAnySettled(EnterCritical(s), i);
    if w.Some? { MaybePreemptStep(s1, w.value); }
    ExitStep(if w.Some? then MaybePreempt(s1, w.value) else s1);
  }

  // ----- Message queues

  /** Changing a ring nobody waits for, and the buffer and result of the running task. */
  lemma RingStep(s: State, i: QueueId, q: Queue, cell: Message)
    requires Inv(s) && s.current.Some? && QueueFits(q)
    requires forall t: TaskId :: s.tasks[t].wait != Some(SendList(i)) && s.tasks[t].wait != Some(ReceiveList(i))
    ensures var c := s.current.value; Inv(SetResult(SetQueue(SetCell(s, c, cell), i, q), c, Status.Ok))
  {
    var c := s.current.value;
    var r := SetResult(SetQueue(SetCell(s, c, cell), i, q), c, Status.Ok);
    forall j: QueueId ensures QueueFits(r.queues[j]) { assert QueueFits(s.queues[j]); }
    forall m: MutexId ensures OwnerFits(r.tasks, r.mutexes[m]) { assert OwnerFits(s.tasks, s.mutexes[m]); }
    forall t: TaskId ensures WaitFits(r, t) && WaitsFor(r, t) == WaitsFor(s, t) { assert WaitFits(s, t); }
    ObjectStep(s, r);
  }

  lemma SendStep(s: State, i: Option<QueueId>, item: Option<Message>, timeout: Tick)
    requires Inv(s)
    ensures Inv(SendCurrent(s, i, item, timeout))
  {
    if CurrentRuns(s) {
      var c := s.current.value;
      if !QueueIsValid(s, i) || item == None {
        ResultStep(s, c, InvalidArgument);
      } else {
        var (s1, receiver) := WaitPop(s, ReceiveList(i.value));
        if receiver.Some? {
          SendDirect(s, i.value, item.value);
        } else if s.queues[i.value].count < s.queues[i.value].capacity {
          NobodyWaits(s, ReceiveList(i.value));
          forall t: TaskId ensures s.tasks[t].wait != Some(SendList(i.value)) { assert WaitFits(s, t); }
          assert QueueFits(s.queues[i.value]);
          PutAppends(s.queues[i.value], item.value);
          var r := SetResult(SetQueue(s, i.value, RingPut(s.queues[i.value], item.value)), c, Status.Ok);
          assert s.tasks[c := s.tasks[c].(cell := s.tasks[c].cell)] == s.tasks;
          RingStep(s, i.value, RingPut(s.queues[i.value], item.value), s.tasks[c].cell);
        } else if timeout == 0 {
          ResultStep(s, c, Timeout);
        } else {
          assert QueueFits(s.queues[i.value]);
          WaitBlockStep(s, SendList(i.value), item.value, timeout);
        }
      }
    }
  }

  /** The receiver's buffer and the sender's result are written while the receiver is in no list. */
  function Delivery(s: State, i: QueueId, item: Message): State
    requires CurrentRuns(s) && WaitPop(s, ReceiveList(i)).1.Some?
  {
    var (s1, w) := WaitPop(s, ReceiveList(i));
    SetResult(SetCell(s1, w.value, item), s.current.value, Status.Ok)
  }

  lemma SendDirect(s: State, i: QueueId, item: Message)
    requires Inv(s) && CurrentRuns(s) && WaitPop(s, ReceiveList(i)).1.Some?
    ensures var (s2, w) := (Delivery(s, i, item), WaitPop(s, ReceiveList(i)).1.value);
            Inv(Serve(s2, w)) && Quiet(MakeReady(s2, w, Status.Ok), Serve(s2, w))
  {
    var l := ReceiveList(i);
    var (s1, w) := WaitPop(s, l);
    WaitPopTakes(s, l, {});
    var s2 := Delivery(s, i, item);
    assert SameButResults(s1.tasks, s2.tasks);
    assert forall k: QueueId :: QueueFits(s.queues[k]);
    ServeQueueStep(s, l, s2, w.value);
  }

  lemma ReceiveStep(s: State, i: Option<QueueId>, out: bool, timeout: Tick)
    requires Inv(s)
    ensures Inv(ReceiveCurrent(s, i, out, timeout))
  {
    if CurrentRuns(s) {
      var c := s.current.value;
      if !QueueIsValid(s, i) || !out {
        ResultStep(s, c, InvalidArgument);
      } else if s.queues[i.value].count > 0 {
        ReceiveMessage(s, i.value, timeout);
      } else if timeout == 0 {
        ResultStep(s, c, Timeout);
      } else {
        WaitBlockStep(s, ReceiveList(i.value), s.tasks[c].cell, timeout);
      }
    }
  }

  lemma ReceiveMessage(s: State, i: QueueId, timeout: Tick)
    requires Inv(s) && CurrentRuns(s) && QueueIsValid(s, Some(i)) && s.queues[i].count > 0
    ensures Inv(ReceiveCurrent(s, Some(i), true, timeout))
  {
    var q := s.queues[i];
    ReceiveUnfolds(s, i, timeout);
    if WaitPop(s, SendList(i)).1.Some? {
      ReceiveAndRefill(s, i);
    } else {
      assert QueueFits(q);
      DropRemoves(q);
      NobodyWaits(s, SendList(i));
      forall t: TaskId ensures s.tasks[t].wait != Some(ReceiveList(i)) { assert WaitFits(s, t); }
      RingStep(s, i, RingDrop(q), q.buffer[q.head]);
    }
  }

  /** The message is taken and the front sender's message put in its place, before the sender wakes. */
  function Refill(s: State, i: QueueId, w: TaskId): State
    requires CurrentRuns(s) && QueueIsValid(s, Some(i)) && s.queues[i].count > 0
  {
    var c, q := s.current.value, s.queues[i];
    var s2 := WaitPop(SetQueue(SetCell(s, c, q.buffer[q.head]), i, RingDrop(q)), SendList(i)).0;
    SetResult(SetQueue(s2, i, RingPut(RingDrop(q), s2.tasks[w].cell)), c, Status.Ok)
  }

  lemma ReceiveUnfolds(s: State, i: QueueId, timeout: Tick)
    requires CurrentRuns(s) && QueueIsValid(s, Some(i)) && s.queues[i].count > 0
    ensures var c, q, w := s.current.value, s.queues[i], WaitPop(s, SendList(i)).1;
            ReceiveCurrent(s, Some(i), true, timeout) ==
            if w.Some? then Serve(Refill(s, i, w.value), w.value)
            else SetResult(SetQueue(SetCell(s, c, q.buffer[q.head]), i, RingDrop(q)), c, Status.Ok)
  {
  }

  lemma ReceiveAndRefill(s: State, i: QueueId)
    requires Inv(s) && CurrentRuns(s) && QueueIsValid(s, Some(i)) && s.queues[i].count > 0
    requires WaitPop(s, SendList(i)).1.Some?
    ensures var (s4, w) := (Refill(s, i, WaitPop(s, SendList(i)).1.value), WaitPop(s, SendList(i)).1.value);
            Inv(Serve(s4, w)) && Quiet(MakeReady(s4, w, Status.Ok), Serve(s4, w))
  {
    var c, q, l := s.current.value, s.queues[i], SendList(i);
    var (p, w) := WaitPop(s, l);
    WaitPopTakes(s, l, {});
    assert QueueFits(q);
    DropRemoves(q);
    PutAppends(RingDrop(q), s.tasks[w.value].cell);
    var s4 := Refill(s, i, w.value);
    RefillChanges(s, i, w.value, p, s4);
    assert forall k: QueueId :: QueueFits(s.queues[k]);
    ServeQueueStep(s, l, s4, w.value);
  }

  lemma RefillChanges(s: State, i: QueueId, w: TaskId, p: State, s4: State)
    requires CurrentRuns(s) && QueueIsValid(s, Some(i)) && s.queues[i].count > 0
    requires p == WaitPop(s, SendList(i)).0 && s4 == Refill(s, i, w) && s.tasks[w].state == BlockedObject
    ensures SameButResults(p.tasks, s4.tasks)
    ensures s4 == p.(tasks := s4.tasks, queues := s.queues[i := RingPut(RingDrop(s.queues[i]), s.tasks[w].cell)])
    ensures s4.tasks ==
            s.tasks[s.current.value := s.tasks[s.current.value].(cell := s.queues[i].buffer[s.queues[i].head],
            result := Status.Ok)]
  {
  }
}
