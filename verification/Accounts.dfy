/** Conservation over whole runs: units and messages are neither lost nor invented nor reordered. */
module Accounts {
  import opened Wrappers
  import opened KernelState
  import opened TaskLists
  import opened Sched
  import opened KernelObjects
  import opened Invariants
  import opened StepProofs
  import opened QueueRing
  import opened ObjectProofs
  import opened Machine
  import opened Effects

  // ----- Which steps touch the object pools

  lemma SemsUntouched(s: State, op: Op)
    requires Inv(s) && Allowed(s, op) && !op.Take? && !op.Give? && !op.GiveIsr? && !op.CreateSem?
    ensures Next(s, op).sems == s.sems
  {
    match op
    case Yield => YieldStep(s);
    case Delay(n) => DelaySpares(s, n);
    case Send(i, item, timeout) => SendPools(s, i, item, timeout);
    case Receive(i, out, timeout) => ReceivePools(s, i, out, timeout);
    case Lock(m, timeout) => LockSpares(s, m, timeout);
    case Unlock(m) => UnlockPools(s, m);
    case Exit => ExitEffect(s);
    case Tick => TickEffect(s);
    case Enter =>
    case Leave => ExitStep(s);
    case _ => SetupSpares(s, op);
  }

  lemma QueuesUntouched(s: State, op: Op)
    requires Inv(s) && Allowed(s, op) && !op.Send? && !op.Receive? && !op.CreateQueue?
    ensures Next(s, op).queues == s.queues
  {
    match op
    case Yield => YieldStep(s);
    case Delay(n) => DelaySpares(s, n);
    case Take(i, timeout) => TakePools(s, i, timeout);
    case Give(i) => GivePools(s, i);
    case GiveIsr(i) => GiveIsrPools(s, i);
    case Lock(m, timeout) => LockSpares(s, m, timeout);
    case Unlock(m) => UnlockPools(s, m);
    case Exit => ExitEffect(s);
    case Tick => TickEffect(s);
    case Enter =>
    case Leave => ExitStep(s);
    case _ => SetupSpares(s, op);
  }

  lemma SendPools(s: State, i: Option<QueueId>, item: Option<Message>, timeout: Tick)
    requires Inv(s)
    ensures SendCurrent(s, i, item, timeout).sems == s.sems
    ensures forall q: QueueId :: i != Some(q) ==> SendCurrent(s, i, item, timeout).queues[q] == s.queues[q]
  {
    if CurrentRuns(s) && QueueIsValid(s, i) && item.Some? {
      SendUnfolds(s, i.value, item.value, timeout);
      if WaitPop(s, ReceiveList(i.value)).1.Some? {
        SendDirectEffect(s, i.value, item.value);
      } else if s.queues[i.value].count == s.queues[i.value].capacity && timeout != 0 {
        ParkSpares(s, SendList(i.value), item.value, timeout);
      }
    }
  }

  lemma ReceivePools(s: State, i: Option<QueueId>, out: bool, timeout: Tick)
    requires Inv(s)
    ensures ReceiveCurrent(s, i, out, timeout).sems == s.sems
    ensures forall q: QueueId :: i != Some(q) ==> ReceiveCurrent(s, i, out, timeout).queues[q] == s.queues[q]
  {
    if ReceiveWorks(s, i, out) {
      ReceiveUnfolds(s, i.value, timeout);
      if WaitPop(s, SendList(i.value)).1.Some? { RefillEffect(s, i.value); }
    } else if CurrentRuns(s) && QueueIsValid(s, i) && out && timeout != 0 {
      ParkSpares(s, ReceiveList(i.value), s.tasks[s.current.value].cell, timeout);
    }
  }

  lemma TakePools(s: State, i: Option<SemId>, timeout: Tick)
    requires Inv(s)
    ensures TakeCurrent(s, i, timeout).queues == s.queues
    ensures forall k: SemId :: i != Some(k) ==> TakeCurrent(s, i, timeout).sems[k] == s.sems[k]
  {
    if CurrentRuns(s) && SemIsValid(s, i) && s.sems[i.value].count == 0 && timeout != 0 {
      ParkSpares(s, SemList(i.value), s.tasks[s.current.value].cell, timeout);
    }
  }

  /** What giving does to the counts. */
  ghost predicate GaveUnit(s: State, i: Option<SemId>, r: State) {
    && r.queues == s.queues
    && (if GiveAny(s, i).1 == Status.Ok && GiveAny(s, i).2 == None
        then s.sems[i.value].count + 1 == r.sems[i.value].count && r.sems == s.sems[i.value := r.sems[i.value]]
          && r.sems[i.value].used
        else r.sems == s.sems)
  }

  lemma GiveAnyUnit(s: State, i: Option<SemId>)
    requires Inv(s)
    ensures GaveUnit(s, i, GiveAny(s, i).0)
  {
    if SemIsValid(s, i) { GiveAnyEffect(s, i.value); }
  }

  lemma GiveUnit(s: State, i: Option<SemId>)
    requires Inv(s) && CurrentRuns(s)
    ensures GaveUnit(s, i, GiveCurrent(s, i)) && GiveCurrent(s, i).tasks[s.current.value].result == GiveAny(s, i).1
  {
    var c := s.current.value;
    var (s1, status, w) := GiveAny(s, i);
    var s2 := SetResult(s1, c, status);
    GiveAnyUnit(s, i);
    assert Quiet(s2, GiveCurrent(s, i)) by { GaveQuietly(s, i); }
    assert SameJob(s2.tasks[c], GiveCurrent(s, i).tasks[c]);
  }

  lemma GivePools(s: State, i: Option<SemId>)
    requires Inv(s)
    ensures GiveCurrent(s, i).queues == s.queues
    ensures forall k: SemId :: i != Some(k) ==> GiveCurrent(s, i).sems[k] == s.sems[k]
  {
    if CurrentRuns(s) { GiveUnit(s, i); }
  }

  lemma GiveIsrUnit(s: State, i: Option<SemId>)
    requires Inv(s)
    ensures GaveUnit(EnterCritical(s), i, GiveFromIsr(s, i))
  {
    EnterStep(s);
    var s0 := EnterCritical(s);
    GiveAnyUnit(s0, i);
    GiveAnySettled(s0, i);
    GiveIsrTail(GiveAny(s0, i).0, GiveAny(s0, i).2);
  }

  lemma GiveIsrPools(s: State, i: Option<SemId>)
    requires Inv(s)
    ensures GiveFromIsr(s, i).queues == s.queues
    ensures forall k: SemId :: i != Some(k) ==> GiveFromIsr(s, i).sems[k] == s.sems[k]
  {
    GiveIsrUnit(s, i);
  }

  // ----- Sleepers that complete

  /** Task t was waiting on list l and the step told it that it succeeded. */
  predicate Completes(s: State, r: State, l: WaitId, t: TaskId) {
    s.tasks[t].wait == Some(l) && r.tasks[t].wait == None && r.tasks[t].result == Status.Ok
  }

  lemma CompletesIsServed(s: State, op: Op, l: WaitId, t: TaskId)
    requires Inv(s) && Allowed(s, op)
    ensures Completes(s, Next(s, op), l, t)
            <==> !op.Tick? && s.tasks[t].wait == Some(l) && Serves(s, op, l) && InFront(s, t, l)
  {
    assert Coherent(s.tasks[t]);
    if s.tasks[t].wait == Some(l) {
      if op.Tick? {
        TickEffect(s);
      } else {
        StepEffect(s, op);
        StepCompletes(s, op, Next(s, op), l, t);
      }
    }
  }

  lemma StepCompletes(s: State, op: Op, r: State, l: WaitId, t: TaskId)
    requires Effect(s, op, r) && s.tasks[t].state == BlockedObject && s.tasks[t].wait == Some(l)
    ensures Completes(s, r, l, t) <==> Serves(s, op, l) && InFront(s, t, l)
  {
  }

  /** The tasks below k that complete, in order of their number. */
  function CompletedBelow(s: State, r: State, l: WaitId, k: nat): (q: seq<TaskId>)
    requires k <= MAX_TASKS
    ensures forall t: TaskId :: t in q <==> t < k && Completes(s, r, l, t)
    ensures NoDuplicates(q)
  {
    if k == 0 then [] else
      var q := CompletedBelow(s, r, l, k - 1);
      if Completes(s, r, l, k - 1) then q + [k - 1] else q
  }

  function Completed(s: State, r: State, l: WaitId): seq<TaskId> {
    CompletedBelow(s, r, l, MAX_TASKS)
  }

  lemma OneOrNone(q: seq<TaskId>)
    requires NoDuplicates(q)
    ensures (forall t: TaskId :: t !in q) ==> q == []
    ensures forall w: TaskId :: w in q && (forall t: TaskId :: t in q ==> t == w) ==> q == [w]
  {
    if q != [] { assert q[0] in q; }
    if |q| > 1 { assert q[0] != q[1] && q[1] in q; }
  }

  /** At most one waiter of a list completes in a step: its front, if the step serves the list. */
  lemma CompletedIsFront(s: State, op: Op, l: WaitId)
    requires Inv(s) && Allowed(s, op)
    ensures Completed(s, Next(s, op), l) ==
            if !op.Tick? && Serves(s, op, l) && At(s.lists, WaitList(l)) != [] then [At(s.lists, WaitList(l))[0]]
              else []
  {
    var r := Next(s, op);
    var q := Completed(s, r, l);
    if At(s.lists, WaitList(l)) != [] { FrontWaits(s, l); }
    forall t: TaskId ensures t in q <==> !op.Tick? && Serves(s, op, l) && InFront(s, t, l) {
      CompletesIsServed(s, op, l, t);
    }
    FrontOrNone(s, l, q, !op.Tick? && Serves(s, op, l));
  }

  lemma FrontOrNone(s: State, l: WaitId, q: seq<TaskId>, served: bool)
    requires NoDuplicates(q) && forall t: TaskId :: t in q <==> served && InFront(s, t, l)
    ensures q == if served && At(s.lists, WaitList(l)) != [] then [At(s.lists, WaitList(l))[0]] else []
  {
    OneOrNone(q);
  }

  // ----- Semaphores

  /** Gives of semaphore i that report success in this step. */
  ghost function Given(s: State, op: Op, i: SemId): nat {
    match op
    case Give(k) => if k == Some(i) && s.current.Some? && Next(s, op).tasks[s.current.value].result == Status.Ok then 1
      else 0
    case GiveIsr(k) => if k == Some(i) && GiveAny(EnterCritical(s), k).1 == Status.Ok then 1 else 0
    case _ => 0
  }

  /** Takes of semaphore i that report success in this step, at once or after waiting. */
  ghost function Taken(s: State, op: Op, i: SemId): nat {
    |Completed(s, Next(s, op), SemList(i))| +
    (if op.Take? && op.semaphore == Some(i) && s.current.Some? && Next(s, op).tasks[s.current.value].result == Status.Ok
      then 1 else 0)
  }

  lemma TakeAccount(s: State, i: SemId, timeout: Tick)
    requires Inv(s) && s.sems[i].used
    ensures var r := TakeCurrent(s, Some(i), timeout);
            s.sems[i].count ==
              r.sems[i].count + (if s.current.Some? && r.tasks[s.current.value].result == Status.Ok then 1 else 0)
  {
    assert SemFits(s.sems[i]);
    if CurrentRuns(s) && s.sems[i].count == 0 && timeout != 0 {
      ParkSpares(s, SemList(i), s.tasks[s.current.value].cell, timeout);
    }
  }

  lemma SemTakeStep(s: State, op: Op, i: SemId)
    requires Inv(s) && op.Take? && s.sems[i].used
    ensures Next(s, op).sems[i].used && s.sems[i].count == Next(s, op).sems[i].count + Taken(s, op, i)
  {
    CompletedIsFront(s, op, SemList(i));
    if op.semaphore == Some(i) {
      TakeAccount(s, i, op.timeout);
      TakeUsed(s, i, op.timeout);
    } else {
      TakePools(s, op.semaphore, op.timeout);
    }
  }

  lemma SemGiveStep(s: State, op: Op, i: SemId)
    requires Inv(s) && (op.Give? || op.GiveIsr?) && s.sems[i].used
    ensures var r := Next(s, op);
            r.sems[i].used && s.sems[i].count + Given(s, op, i) == r.sems[i].count + Taken(s, op, i)
  {
    match op
    case Give(k) => GiveStepBalances(s, k, i);
    case GiveIsr(k) => GiveIsrStepBalances(s, k, i);
  }

  /** A successful give either serves the front waiter or counts up. */
  lemma GiveBalances(s: State, k: Option<SemId>, i: SemId, r: State)
    requires GaveUnit(s, k, r) && s.sems[i].used
    ensures r.sems[i].used
    ensures s.sems[i].count + (if k == Some(i) && GiveAny(s, k).1 == Status.Ok then 1 else 0)
            == r.sems[i].count + (if k == Some(i) && GiveAny(s, k).1 == Status.Ok && GiveAny(s, k).2.Some? then 1
                                  else 0)
  {
  }

  lemma GiveStepBalances(s: State, k: Option<SemId>, i: SemId)
    requires Inv(s) && s.sems[i].used
    ensures var (op, r) := (Op.Give(k), GiveCurrent(s, k));
            r.sems[i].used && s.sems[i].count + Given(s, op, i) == r.sems[i].count + Taken(s, op, i)
  {
    CompletedIsFront(s, Op.Give(k), SemList(i));
    if CurrentRuns(s) {
      GiveUnit(s, k);
      GiveBalances(s, k, i, GiveCurrent(s, k));
      assert k == Some(i) ==> SemIsValid(s, k) by { assert SemFits(s.sems[i]); }
    }
  }

  lemma GiveIsrStepBalances(s: State, k: Option<SemId>, i: SemId)
    requires Inv(s) && s.sems[i].used
    ensures var (op, r) := (Op.GiveIsr(k), GiveFromIsr(s, k));
            r.sems[i].used && s.sems[i].count + Given(s, op, i) == r.sems[i].count + Taken(s, op, i)
  {
    CompletedIsFront(s, Op.GiveIsr(k), SemList(i));
    GiveIsrUnit(s, k);
    GiveBalances(EnterCritical(s), k, i, GiveFromIsr(s, k));
    assert k == Some(i) ==> SemIsValid(s, k) by { assert SemFits(s.sems[i]); }
  }

  lemma SemStep(s: State, op: Op, i: SemId)
    requires Inv(s) && Allowed(s, op) && s.sems[i].used
    ensures var r := Next(s, op);
            r.sems[i].used && s.sems[i].count + Given(s, op, i) == r.sems[i].count + Taken(s, op, i)
  {
    if op.Take? {
      SemTakeStep(s, op, i);
    } else if op.Give? || op.GiveIsr? {
      SemGiveStep(s, op, i);
    } else {
      CompletedIsFront(s, op, SemList(i));
      if !op.CreateSem? { SemsUntouched(s, op); }
    }
  }

  lemma TakeUsed(s: State, i: SemId, timeout: Tick)
    requires Inv(s)
    ensures TakeCurrent(s, Some(i), timeout).sems[i].used == s.sems[i].used
  {
    if CurrentRuns(s) && SemIsValid(s, Some(i)) && s.sems[i].count == 0 && timeout != 0 {
      ParkSpares(s, SemList(i), s.tasks[s.current.value].cell, timeout);
    }
  }

  ghost function AllGiven(s: State, ops: seq<Op>, i: SemId): nat
    decreases |ops|
  {
    if ops == [] then 0 else Given(s, ops[0], i) + AllGiven(Next(s, ops[0]), ops[1..], i)
  }

  ghost function AllTaken(s: State, ops: seq<Op>, i: SemId): nat
    decreases |ops|
  {
    if ops == [] then 0 else Taken(s, ops[0], i) + AllTaken(Next(s, ops[0]), ops[1..], i)
  }

  /** Over any run, units given plus the initial count equal units taken plus the final count. */
  lemma {:induction false} SemConservation(s: State, ops: seq<Op>, i: SemId)
    requires Inv(s) && AllowedRun(s, ops) && s.sems[i].used
    ensures s.sems[i].count + AllGiven(s, ops, i) == Run(s, ops).sems[i].count + AllTaken(s, ops, i)
    decreases |ops|
  {
    if ops != [] {
      SemStep(s, ops[0], i);
      NextKeeps(s, ops[0]);
      SemConservation(Next(s, ops[0]), ops[1..], i);
    }
  }

  // ----- Message queues

  function Cells(tasks: TaskPool, q: seq<TaskId>): seq<Message> {
    seq(|q|, i requires 0 <= i < |q| => tasks[q[i]].cell)
  }

  /** Messages whose sender is told in the step to r that queue i accepted them. */
  ghost function AcceptedBy(s: State, op: Op, r: State, i: QueueId): seq<Message> {
    Cells(s.tasks, Completed(s, r, SendList(i))) +
    (if op.Send? && op.target == Some(i) && op.item.Some? && s.current.Some?
      && r.tasks[s.current.value].result == Status.Ok
     then [op.item.value] else [])
  }

  /** Messages that a receiver finds in its buffer when it is told in the step to r that it received one. */
  ghost function ReceivedBy(s: State, op: Op, r: State, i: QueueId): seq<Message> {
    Cells(r.tasks, Completed(s, r, ReceiveList(i))) +
    (if op.Receive? && op.target == Some(i) && s.current.Some? && r.tasks[s.current.value].result == Status.Ok
     then [r.tasks[s.current.value].cell] else [])
  }

  ghost function Accepted(s: State, op: Op, i: QueueId): seq<Message> {
    AcceptedBy(s, op, Next(s, op), i)
  }

  ghost function Received(s: State, op: Op, i: QueueId): seq<Message> {
    ReceivedBy(s, op, Next(s, op), i)
  }

  ghost predicate FifoTo(s: State, op: Op, r: State, i: QueueId) {
    Balanced(s.queues[i], AcceptedBy(s, op, r, i), ReceivedBy(s, op, r, i), r.queues[i])
  }

  ghost predicate Fifo(s: State, op: Op, i: QueueId) {
    FifoTo(s, op, Next(s, op), i)
  }

  /** What was in the ring and then came in is what went out and then is in the ring. */
  ghost predicate Balanced(q: Queue, accepted: seq<Message>, received: seq<Message>, q': Queue) {
    && q.used && QueueFits(q) && q'.used && QueueFits(q')
    && Contents(q) + accepted == received + Contents(q')
  }

  lemma SendFifo(s: State, i: QueueId, item: Option<Message>, timeout: Tick)
    requires Inv(s) && s.queues[i].used
    ensures Fifo(s, Op.Send(Some(i), item, timeout), i)
  {
    var op := Op.Send(Some(i), item, timeout);
    assert QueueFits(s.queues[i]);
    SendAccounts(s, i, item, timeout);
    if SendHandsOver(s, Some(i), item) {
      SendDelivers(s, i, item.value, timeout);
      HandedOver(s, i, item.value);
      SentOver(s, op, i, Next(s, op));
    } else {
      SendPlain(s, i, item, timeout);
      SentPlain(s, op, i, Next(s, op));
    }
  }

  lemma SentOver(s: State, op: Op, i: QueueId, r: State)
    requires op.Send? && op.target == Some(i) && op.item.Some? && s.current.Some?
             && At(s.lists, WaitList(ReceiveList(i))) != []
    requires s.queues[i].used && QueueFits(s.queues[i]) && Contents(s.queues[i]) == [] && r.queues == s.queues
    requires var w := At(s.lists, WaitList(ReceiveList(i)))[0];
             Completed(s, r, SendList(i)) == [] && Completed(s, r, ReceiveList(i)) == [w]
               && r.tasks[w].cell == op.item.value
    requires r.tasks[s.current.value].result == Status.Ok
    ensures FifoTo(s, op, r, i)
  {
    assert ReceivedBy(s, op, r, i) == [op.item.value] && AcceptedBy(s, op, r, i) == [op.item.value];
  }

  lemma SentPlain(s: State, op: Op, i: QueueId, r: State)
    requires op.Send? && op.target == Some(i) && s.queues[i].used && r.queues[i].used
    requires Completed(s, r, SendList(i)) == [] && Completed(s, r, ReceiveList(i)) == []
    requires QueueFits(s.queues[i]) && QueueFits(r.queues[i])
    requires if s.current.Some? && r.tasks[s.current.value].result == Status.Ok
             then op.item.Some? && Contents(r.queues[i]) == Contents(s.queues[i]) + [op.item.value]
             else r.queues[i] == s.queues[i]
    ensures FifoTo(s, op, r, i)
  {
    assert ReceivedBy(s, op, r, i) == [];
  }

  lemma SendAccounts(s: State, i: QueueId, item: Option<Message>, timeout: Tick)
    requires Inv(s)
    ensures var (r, l) := (SendCurrent(s, Some(i), item, timeout), WaitList(ReceiveList(i)));
            && Completed(s, r, SendList(i)) == []
            && Completed(s, r, ReceiveList(i)) == if SendHandsOver(s, Some(i), item) then [At(s.lists, l)[0]] else []
  {
    var op := Op.Send(Some(i), item, timeout);
    assert Completed(s, Next(s, op), SendList(i)) == [] by { CompletedIsFront(s, op, SendList(i)); }
    CompletedIsFront(s, op, ReceiveList(i));
  }

  lemma SendDelivers(s: State, i: QueueId, item: Message, timeout: Tick)
    requires Inv(s) && SendHandsOver(s, Some(i), Some(item))
    ensures var r := SendCurrent(s, Some(i), Some(item), timeout);
            && r.tasks[At(s.lists, WaitList(ReceiveList(i)))[0]].cell == item
            && r.tasks[s.current.value].result == Status.Ok && r.queues == s.queues
  {
    FrontWaits(s, ReceiveList(i));
    SendUnfolds(s, i, item, timeout);
    SendDirectEffect(s, i, item);
  }

  /** Receivers wait only at an empty ring, so a direct hand-off is a push followed by a pop. */
  lemma HandedOver(s: State, i: QueueId, item: Message)
    requires Inv(s) && SendHandsOver(s, Some(i), Some(item))
    ensures Contents(s.queues[i]) == []
  {
    FrontWaits(s, ReceiveList(i));
    assert WaitFits(s, At(s.lists, WaitList(ReceiveList(i)))[0]);
  }

  lemma SendPlain(s: State, i: QueueId, item: Option<Message>, timeout: Tick)
    requires Inv(s) && s.queues[i].used && !SendHandsOver(s, Some(i), item)
    ensures var (r, q) := (SendCurrent(s, Some(i), item, timeout), s.queues[i]);
            && r.queues[i].used && QueueFits(q) && QueueFits(r.queues[i])
            && (s.current == None ==> r.queues[i] == q)
            && (s.current.Some? && r.tasks[s.current.value].result != Status.Ok ==> r.queues[i] == q)
            && (s.current.Some? && r.tasks[s.current.value].result == Status.Ok ==>
                  item.Some? && Contents(r.queues[i]) == Contents(q) + [item.value])
  {
    var q := s.queues[i];
    assert QueueFits(q);
    if CurrentRuns(s) && item.Some? {
      SendUnfolds(s, i, item.value, timeout);
      if q.count < q.capacity {
        PutAppends(q, item.value);
      } else if timeout != 0 {
        ParkSpares(s, SendList(i), item.value, timeout);
      }
    }
  }

  lemma ReceiveRefills(s: State, i: QueueId, timeout: Tick)
    requires Inv(s) && ReceiveWorks(s, Some(i), true) && At(s.lists, WaitList(SendList(i))) != []
    ensures var (r, q, c) := (ReceiveCurrent(s, Some(i), true, timeout), s.queues[i], s.current.value);
            && r.tasks[c].result == Status.Ok
            && Balanced(q, [s.tasks[At(s.lists, WaitList(SendList(i)))[0]].cell], [r.tasks[c].cell], r.queues[i])
  {
    FrontWaits(s, SendList(i));
    ReceiveUnfolds(s, i, timeout);
    RefillEffect(s, i);
    assert QueueFits(s.queues[i]);
    RefillBalances(s.queues[i], s.tasks[At(s.lists, WaitList(SendList(i)))[0]].cell);
  }

  /** Taking the oldest message of a full ring and putting another one in its place. */
  lemma RefillBalances(q: Queue, item: Message)
    requires q.used && QueueFits(q) && q.count > 0
    ensures Balanced(q, [item], [q.buffer[q.head]], RingPut(RingDrop(q), item))
  {
    DropRemoves(q);
    PutAppends(RingDrop(q), item);
  }

  lemma ReceivePlain(s: State, i: QueueId, timeout: Tick)
    requires Inv(s) && ReceiveWorks(s, Some(i), true) && At(s.lists, WaitList(SendList(i))) == []
    ensures var (r, q, c) := (ReceiveCurrent(s, Some(i), true, timeout), s.queues[i], s.current.value);
            r.tasks[c].result == Status.Ok && Balanced(q, [], [r.tasks[c].cell], r.queues[i])
  {
    assert QueueFits(s.queues[i]);
    ReceiveUnfolds(s, i, timeout);
    DropRemoves(s.queues[i]);
  }

  lemma ReceiveFails(s: State, i: QueueId, out: bool, timeout: Tick)
    requires Inv(s) && s.queues[i].used && !ReceiveWorks(s, Some(i), out)
    ensures var r := ReceiveCurrent(s, Some(i), out, timeout);
            && (s.current.Some? ==> r.tasks[s.current.value].result != Status.Ok)
            && Balanced(s.queues[i], [], [], r.queues[i])
  {
    assert QueueFits(s.queues[i]);
    if CurrentRuns(s) && out && timeout != 0 {
      ParkSpares(s, ReceiveList(i), s.tasks[s.current.value].cell, timeout);
    }
  }

  lemma ReceiveAccounts(s: State, i: QueueId, out: bool, timeout: Tick)
    requires Inv(s)
    ensures var (op, l) := (Op.Receive(Some(i), out, timeout), WaitList(SendList(i)));
            && Accepted(s, op, i) ==
               (if ReceiveWorks(s, Some(i), out) && At(s.lists, l) != [] then [s.tasks[At(s.lists, l)[0]].cell] else [])
            && Completed(s, Next(s, op), ReceiveList(i)) == []
  {
    var op, l := Op.Receive(Some(i), out, timeout), WaitList(SendList(i));
    CompletedIsFront(s, op, ReceiveList(i));
    CompletedIsFront(s, op, SendList(i));
    AcceptedFrom(s, op, Next(s, op), i, if ReceiveWorks(s, Some(i), out) && At(s.lists, l) != []
                 then [At(s.lists, l)[0]] else []);
  }

  /** Without a send, the accepted messages are those of the senders that completed. */
  lemma AcceptedFrom(s: State, op: Op, r: State, i: QueueId, senders: seq<TaskId>)
    requires !op.Send? && Completed(s, r, SendList(i)) == senders
    ensures AcceptedBy(s, op, r, i) == Cells(s.tasks, senders)
  {
  }

  lemma ReceiveFifo(s: State, i: QueueId, out: bool, timeout: Tick)
    requires Inv(s) && s.queues[i].used
    ensures Fifo(s, Op.Receive(Some(i), out, timeout), i)
  {
    if ReceiveWorks(s, Some(i), out) {
      ReceiveOkFifo(s, i, timeout, Next(s, Op.Receive(Some(i), true, timeout)));
    } else {
      ReceiveRefusedFifo(s, i, out, timeout, Next(s, Op.Receive(Some(i), out, timeout)));
    }
  }

  lemma ReceiveOkFifo(s: State, i: QueueId, timeout: Tick, r: State)
    requires Inv(s) && ReceiveWorks(s, Some(i), true) && r == Next(s, Op.Receive(Some(i), true, timeout))
    ensures FifoTo(s, Op.Receive(Some(i), true, timeout), r, i)
  {
    var op, c, q := Op.Receive(Some(i), true, timeout), s.current.value, At(s.lists, WaitList(SendList(i)));
    var accepted := if q != [] then [s.tasks[q[0]].cell] else [];
    assert AcceptedBy(s, op, r, i) == accepted && Completed(s, r, ReceiveList(i)) == [] by {
      ReceiveAccounts(s, i, true, timeout);
    }
    assert r.tasks[c].result == Status.Ok && Balanced(s.queues[i], accepted, [r.tasks[c].cell], r.queues[i]) by {
      ReceiveDelivers(s, i, timeout, r);
    }
    ReceivedOne(s, op, i, r);
  }

  lemma ReceiveRefusedFifo(s: State, i: QueueId, out: bool, timeout: Tick, r: State)
    requires Inv(s) && s.queues[i].used && !ReceiveWorks(s, Some(i), out)
    requires r == Next(s, Op.Receive(Some(i), out, timeout))
    ensures FifoTo(s, Op.Receive(Some(i), out, timeout), r, i)
  {
    ReceiveAccounts(s, i, out, timeout);
    ReceiveFails(s, i, out, timeout);
    ReceivedNone(s, Op.Receive(Some(i), out, timeout), i, r);
  }

  lemma ReceiveDelivers(s: State, i: QueueId, timeout: Tick, r: State)
    requires Inv(s) && ReceiveWorks(s, Some(i), true) && r == ReceiveCurrent(s, Some(i), true, timeout)
    ensures var (c, q) := (s.current.value, At(s.lists, WaitList(SendList(i))));
            && r.tasks[c].result == Status.Ok
            && Balanced(s.queues[i], if q != [] then [s.tasks[q[0]].cell] else [], [r.tasks[c].cell], r.queues[i])
  {
    if At(s.lists, WaitList(SendList(i))) != [] {
      ReceiveRefills(s, i, timeout);
    } else {
      ReceivePlain(s, i, timeout);
    }
  }

  lemma ReceivedNone(s: State, op: Op, i: QueueId, r: State)
    requires op.Receive? && op.target == Some(i) && Completed(s, r, ReceiveList(i)) == []
             && AcceptedBy(s, op, r, i) == []
    requires s.current.Some? ==> r.tasks[s.current.value].result != Status.Ok
    requires Balanced(s.queues[i], [], [], r.queues[i])
    ensures FifoTo(s, op, r, i)
  {
    assert ReceivedBy(s, op, r, i) == [];
  }

  lemma ReceivedOne(s: State, op: Op, i: QueueId, r: State)
    requires op.Receive? && op.target == Some(i) && Completed(s, r, ReceiveList(i)) == []
    requires s.current.Some? && r.tasks[s.current.value].result == Status.Ok
    requires Balanced(s.queues[i], AcceptedBy(s, op, r, i), [r.tasks[s.current.value].cell], r.queues[i])
    ensures FifoTo(s, op, r, i)
  {
    assert ReceivedBy(s, op, r, i) == [r.tasks[s.current.value].cell];
  }

  lemma QueueStep(s: State, op: Op, i: QueueId)
    requires Inv(s) && Allowed(s, op) && s.queues[i].used
    ensures Fifo(s, op, i)
  {
    if op.Send? && op.target == Some(i) {
      SendFifo(s, i, op.item, op.timeout);
    } else if op.Receive? && op.target == Some(i) {
      ReceiveFifo(s, i, op.out, op.timeout);
    } else {
      OtherStep(s, op, i);
    }
  }

  lemma QueueUntouched(s: State, op: Op, i: QueueId)
    requires Inv(s) && Allowed(s, op) && s.queues[i].used
    requires !(op.Send? && op.target == Some(i)) && !(op.Receive? && op.target == Some(i))
    ensures Next(s, op).queues[i] == s.queues[i]
  {
    match op
    case Send(k, item, timeout) => SendPools(s, k, item, timeout);
    case Receive(k, out, timeout) => ReceivePools(s, k, out, timeout);
    case CreateQueue(_, _) =>
    case _ => QueuesUntouched(s, op);
  }

  lemma OtherAccounts(s: State, op: Op, i: QueueId)
    requires Inv(s) && Allowed(s, op)
    requires !(op.Send? && op.target == Some(i)) && !(op.Receive? && op.target == Some(i))
    ensures Accepted(s, op, i) == [] && Received(s, op, i) == []
  {
    assert Completed(s, Next(s, op), SendList(i)) == [] by { CompletedIsFront(s, op, SendList(i)); }
    assert Completed(s, Next(s, op), ReceiveList(i)) == [] by { CompletedIsFront(s, op, ReceiveList(i)); }
  }

  lemma OtherStep(s: State, op: Op, i: QueueId)
    requires Inv(s) && Allowed(s, op) && s.queues[i].used
    requires !(op.Send? && op.target == Some(i)) && !(op.Receive? && op.target == Some(i))
    ensures Fifo(s, op, i)
  {
    assert QueueFits(s.queues[i]);
    OtherAccounts(s, op, i);
    QueueUntouched(s, op, i);
  }

  ghost function AllAccepted(s: State, ops: seq<Op>, i: QueueId): seq<Message>
    decreases |ops|
  {
    if ops == [] then [] else Accepted(s, ops[0], i) + AllAccepted(Next(s, ops[0]), ops[1..], i)
  }

  ghost function AllReceived(s: State, ops: seq<Op>, i: QueueId): seq<Message>
    decreases |ops|
  {
    if ops == [] then [] else Received(s, ops[0], i) + AllReceived(Next(s, ops[0]), ops[1..], i)
  }

  /** Over any run, the messages in the ring at the start followed by the accepted ones are
      the received ones followed by the messages in the ring at the end: a plain FIFO, with
      direct hand-off, refill from blocked senders and timed-out senders included. */
  lemma {:induction false} QueueIsFifo(s: State, ops: seq<Op>, i: QueueId)
    requires Inv(s) && AllowedRun(s, ops) && s.queues[i].used
    ensures var q, q' := s.queues[i], Run(s, ops).queues[i];
            && QueueFits(q) && QueueFits(q') && q'.used
            && Contents(q) + AllAccepted(s, ops, i) == AllReceived(s, ops, i) + Contents(q')
    decreases |ops|
  {
    assert QueueFits(s.queues[i]);
    if ops != [] {
      QueueStep(s, ops[0], i);
      NextKeeps(s, ops[0]);
      var s1 := Next(s, ops[0]);
      QueueIsFifo(s1, ops[1..], i);
      ConcatSwap(Contents(s.queues[i]), Accepted(s, ops[0], i), Received(s, ops[0], i), Contents(s1.queues[i]),
                 AllAccepted(s1, ops[1..], i), AllReceived(s1, ops[1..], i), Contents(Run(s, ops).queues[i]));
    }
  }

  lemma ConcatSwap<T>(c0: seq<T>, a: seq<T>, r: seq<T>, c1: seq<T>, as': seq<T>, rs: seq<T>, c2: seq<T>)
    requires c0 + a == r + c1 && c1 + as' == rs + c2
    ensures c0 + (a + as') == (r + rs) + c2
  {
    assert c0 + (a + as') == (c0 + a) + as' == r + (c1 + as');
  }
}
