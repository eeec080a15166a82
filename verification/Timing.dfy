/** Sleeping in unbounded time: exact across wrap-arounds of the clock and any other kernel calls. */
module Timing {
  import opened Wrappers
  import opened KernelState
  import opened Sched
  import opened KernelObjects
  import opened DelayLists
  import opened Invariants
  import opened ObjectProofs
  import opened Machine
  import opened Effects
  import opened Replies

  /** The number of ticks in a run. */
  function Ticks(ops: seq<Op>): nat {
    if ops == [] then 0 else (if ops[0].Tick? then 1 else 0) + Ticks(ops[1..])
  }

  lemma {:induction false} RunSplits(s: State, a: seq<Op>, b: seq<Op>)
    ensures Run(s, a + b) == Run(Run(s, a), b)
    ensures AllowedRun(s, a + b) <==> AllowedRun(s, a) && AllowedRun(Run(s, a), b)
    ensures Ticks(a + b) == Ticks(a) + Ticks(b)
    decreases |a|
  {
    if a == [] {
      assert a + b == b;
    } else {
      assert (a + b)[1..] == a[1..] + b;
      RunSplits(Next(s, a[0]), a[1..], b);
    }
  }

  /** One step brings a sleeper with a time limit one tick closer to it, or wakes it. */
  lemma Countdown(s: State, r: State, t: TaskId, ticked: bool)
    requires Delays(s, false) && s.tasks[t].delayList.Some? && Spared(s, r, t)
    requires r.tick == if ticked then (s.tick + 1) % TICK_MODULUS else s.tick
    ensures Remaining(r, t) == Remaining(s, t) - (if ticked then 1 else 0)
  {
    RemainingInRange(s, t);
  }

  // ----- Plain delays

  lemma DelayedStep(s: State, op: Op, t: TaskId)
    requires Inv(s) && Allowed(s, op) && s.tasks[t].state == BlockedDelay
    ensures var r := Next(s, op);
            if op.Tick? && Remaining(s, t) == 1 then Runnable(r.tasks[t].state)
            else r.tasks[t].state == BlockedDelay && Remaining(s, t) > 0
                 && Remaining(r, t) == Remaining(s, t) - (if op.Tick? then 1 else 0)
  {
    assert Coherent(s.tasks[t]);
    RemainingInRange(s, t);
    var r := Next(s, op);
    if op.Tick? {
      TickEffect(s);
      if Remaining(s, t) != 1 { Countdown(s, r, t, true); }
    } else {
      StepEffect(s, op);
      Countdown(s, r, t, false);
    }
  }

  /** While fewer ticks have passed than remain, a delayed task stays asleep. */
  lemma {:induction false} StillDelayed(s: State, ops: seq<Op>, t: TaskId)
    requires Inv(s) && AllowedRun(s, ops) && s.tasks[t].state == BlockedDelay && Ticks(ops) < Remaining(s, t)
    ensures Run(s, ops).tasks[t].state == BlockedDelay && Remaining(Run(s, ops), t) == Remaining(s, t) - Ticks(ops)
    decreases |ops|
  {
    if ops != [] {
      DelayedStep(s, ops[0], t);
      NextKeeps(s, ops[0]);
      StillDelayed(Next(s, ops[0]), ops[1..], t);
    }
  }

  /** Longer time limits than 2^31 - 1 ticks count as 2^31 - 1. */
  function Limit(n: Tick): Tick {
    if n < 0x8000_0000 then n else 0x7FFF_FFFF
  }

  lemma DelayStarts(s: State, n: Tick)
    requires Inv(s) && s.current.Some? && n > 0
    ensures var r := Next(s, Op.Delay(n));
            r.tasks[s.current.value].state == BlockedDelay && Remaining(r, s.current.value) == Limit(n)
  {
    DelaySpares(s, n);
  }

  /** A task that delays n ticks (at most 2^31-1) is asleep for exactly n calls of the tick
      handler: not awake before the n-th, and awake right after it. */
  lemma DelayIsExact(s: State, n: Tick, ops: seq<Op>)
    requires Reachable(s) && s.current.Some? && n > 0 && AllowedRun(Next(s, Op.Delay(n)), ops)
    ensures Ticks(ops) < Limit(n) ==> Run(Next(s, Op.Delay(n)), ops).tasks[s.current.value].state == BlockedDelay
    ensures Ticks(ops) == Limit(n) && ops != [] && ops[|ops| - 1].Tick? ==>
              Runnable(Run(Next(s, Op.Delay(n)), ops).tasks[s.current.value].state)
  {
    ReachableInv(s);
    DelayStarts(s, n);
    NextKeeps(s, Op.Delay(n));
    var t, s1 := s.current.value, Next(s, Op.Delay(n));
    if Ticks(ops) < Limit(n) {
      StillDelayed(s1, ops, t);
    } else if Ticks(ops) == Limit(n) && ops != [] && ops[|ops| - 1].Tick? {
      var a, b := ops[..|ops| - 1], ops[|ops| - 1..];
      assert ops == a + b;
      RunSplits(s1, a, b);
      assert Ticks(b) == 1 by { assert b[1..] == []; }
      StillDelayed(s1, a, t);
      RunKeeps(s1, a);
      assert Run(Run(s1, a), b) == Next(Run(s1, a), b[0]) by { assert b[1..] == []; }
      DelayedStep(Run(s1, a), b[0], t);
    }
  }

  // ----- Waiting for a kernel object

  /** Still waiting for the same thing, with the clock running. */
  ghost predicate StillWaiting(s: State, op: Op, r: State, t: TaskId) {
    && Spared(s, r, t)
    && (s.tasks[t].delayList.Some?
        ==> Remaining(s, t) > 0 && Remaining(r, t) == Remaining(s, t) - (if op.Tick? then 1 else 0))
  }

  ghost predicate GotIt(s: State, op: Op, r: State, t: TaskId) {
    !op.Tick? && ServedBy(s, op, t) && Woke(s, r, t) && Transferred(s, op, r, t)
  }

  ghost predicate GaveUp(s: State, op: Op, r: State, t: TaskId) {
    op.Tick? && TimeUp(s, t) && Runnable(r.tasks[t].state) && r.tasks[t].wait == None && r.tasks[t].result == Timeout
  }

  /** A waiting task leaves by exactly one kind of wake: with OK when what it waited for was
      transferred to it, with TIMEOUT on the tick its limit expires; otherwise it stays. */
  lemma WaitOutcome(s: State, op: Op, t: TaskId)
    requires Inv(s) && Allowed(s, op) && s.tasks[t].state == BlockedObject
    ensures var r := Next(s, op); GotIt(s, op, r, t) || GaveUp(s, op, r, t) || StillWaiting(s, op, r, t)
    ensures var r := Next(s, op); r.tasks[t].state == BlockedObject <==> StillWaiting(s, op, r, t)
    ensures var r := Next(s, op); r.tasks[t].state != BlockedObject ==>
              && (r.tasks[t].result == Status.Ok <==> !op.Tick? && ServedBy(s, op, t))
              && (r.tasks[t].result == Timeout <==> op.Tick? && TimeUp(s, t))
  {
    LeavesOrStays(s, op, t, Next(s, op));
  }

  /** Whether a waiting task leaves is decided by the state before the step alone. */
  lemma LeavesOrStays(s: State, op: Op, t: TaskId, r: State)
    requires Inv(s) && Allowed(s, op) && s.tasks[t].state == BlockedObject && r == Next(s, op)
    ensures if op.Tick? then if TimeUp(s, t) then GaveUp(s, op, r, t) else StillWaiting(s, op, r, t)
            else if ServedBy(s, op, t) then GotIt(s, op, r, t) else StillWaiting(s, op, r, t)
  {
    if s.tasks[t].delayList.Some? { RemainingInRange(s, t); }
    if op.Tick? {
      TickEffect(s);
      if !TimeUp(s, t) && s.tasks[t].delayList.Some? { Countdown(s, r, t, true); }
    } else {
      StepEffect(s, op);
      if !ServedBy(s, op, t) && s.tasks[t].delayList.Some? { Countdown(s, r, t, false); }
    }
  }

  /** A wait with a time limit of n ticks ends within n ticks, in step k of the run; it times
      out only if exactly n ticks have passed. */
  lemma {:induction false} TimedWaitEnds(s: State, ops: seq<Op>, t: TaskId) returns (k: nat)
    requires Inv(s) && AllowedRun(s, ops) && s.tasks[t].state == BlockedObject && s.tasks[t].delayList.Some?
    requires Ticks(ops) >= Remaining(s, t)
    ensures EndsAt(s, ops, t, Remaining(s, t), k)
    decreases |ops|
  {
    RemainingInRange(s, t);
    var r := Next(s, ops[0]);
    WaitOutcome(s, ops[0], t);
    NextKeeps(s, ops[0]);
    if StillWaiting(s, ops[0], r, t) {
      StillCounting(s, ops, t);
      var j := TimedWaitEnds(r, ops[1..], t);
      k := j + 1;
      assert ops[..k][1..] == ops[1..][..j] && ops[..k][0] == ops[0];
    } else {
      k := 0;
      assert ops[..0] == [];
    }
  }

  lemma StillCounting(s: State, ops: seq<Op>, t: TaskId)
    requires Inv(s) && ops != [] && Allowed(s, ops[0]) && StillWaiting(s, ops[0], Next(s, ops[0]), t)
    requires s.tasks[t].state == BlockedObject && s.tasks[t].delayList.Some? && Ticks(ops) >= Remaining(s, t)
    ensures Ticks(ops[1..]) >= Remaining(Next(s, ops[0]), t)
  {
  }

  // ----- Calls with a timeout

  /** t has just begun to wait; n is the number of ticks it will wait at most. */
  ghost predicate Waits(r: State, t: TaskId, n: Tick) {
    && r.tasks[t].state == BlockedObject
    && if n == WAIT_FOREVER then r.tasks[t].delayList == None else r.tasks[t].delayList.Some? && Remaining(r, t) == n
  }

  /** Blocking with a finite timeout starts the countdown at that timeout, even when the
      deadline happens to equal the wait-forever sentinel. */
  lemma WaitStarts(s: State, l: WaitId, cell: Message, timeout: Tick)
    requires Inv(s) && s.current.Some? && timeout != 0
    ensures Waits(WaitBlock(s, l, cell, timeout), s.current.value, LimitOf(timeout))
  {
    ParkSpares(s, l, cell, timeout);
  }

  /** What a timeout means: a number of ticks, or forever. */
  function LimitOf(timeout: Tick): Tick {
    if timeout == WAIT_FOREVER then WAIT_FOREVER else Limit(timeout)
  }

  lemma TakeStartsWait(s: State, i: Option<SemId>, timeout: Tick, t: TaskId, r: State)
    requires Inv(s) && s.current == Some(t) && r == TakeCurrent(s, i, timeout) && r.tasks[t].state == BlockedObject
    ensures Waits(r, t, LimitOf(timeout))
  {
    if SemIsValid(s, i) && s.sems[i.value].count == 0 && timeout != 0 {
      WaitStarts(s, SemList(i.value), s.tasks[t].cell, timeout);
    }
  }

  lemma SendStartsWait(s: State, i: Option<QueueId>, item: Option<Message>, timeout: Tick, t: TaskId, r: State)
    requires Inv(s) && s.current == Some(t) && r == SendCurrent(s, i, item, timeout)
             && r.tasks[t].state == BlockedObject
    ensures Waits(r, t, LimitOf(timeout))
  {
    if QueueIsValid(s, i) && item.Some? {
      SendUnfolds(s, i.value, item.value, timeout);
      if WaitPop(s, ReceiveList(i.value)).1.Some? {
        SendDirectEffect(s, i.value, item.value);
      } else if timeout != 0 {
        WaitStarts(s, SendList(i.value), item.value, timeout);
      }
    }
  }

  lemma ReceiveStartsWait(s: State, i: Option<QueueId>, out: bool, timeout: Tick, t: TaskId, r: State)
    requires Inv(s) && s.current == Some(t) && r == ReceiveCurrent(s, i, out, timeout)
             && r.tasks[t].state == BlockedObject
    ensures Waits(r, t, LimitOf(timeout))
  {
    if ReceiveWorks(s, i, out) {
      ReceiveUnfolds(s, i.value, timeout);
      if WaitPop(s, SendList(i.value)).1.Some? { RefillEffect(s, i.value); }
    } else if QueueIsValid(s, i) && out && timeout != 0 {
      WaitStarts(s, ReceiveList(i.value), s.tasks[t].cell, timeout);
    }
  }

  lemma LockStartsWait(s: State, m: Option<MutexId>, timeout: Tick, t: TaskId, r: State)
    requires Inv(s) && s.current == Some(t) && !IsIdle(s.tasks[t])
    requires r == LockCurrent(s, m, timeout) && r.tasks[t].state == BlockedObject
    ensures Waits(r, t, LimitOf(timeout))
  {
    if MutexIsValid(s, m) && s.mutexes[m.value].owner.Some? && s.mutexes[m.value].owner != s.current && timeout != 0 {
      var s2 := WaitBlock(s, MutexList(m.value), s.tasks[t].cell, timeout);
      WaitStarts(s, MutexList(m.value), s.tasks[t].cell, timeout);
      assert Quiet(s2, r) by { LockQuietly(s, m.value, timeout); }
      QuietWaits(s2, r, t, LimitOf(timeout));
    }
  }

  lemma QuietWaits(s: State, r: State, t: TaskId, n: Tick)
    requires Quiet(s, r) && Waits(s, t, n)
    ensures Waits(r, t, n)
  {
    assert SameJob(s.tasks[t], r.tasks[t]);
  }

  /** Whichever call blocked its caller, the wait is limited by the timeout of that call. */
  lemma CallStartsWait(s: State, op: Op, t: TaskId)
    requires Inv(s) && Allowed(s, op) && s.current == Some(t) && MustWait(s, op)
    ensures Waits(Next(s, op), t, LimitOf(op.timeout))
  {
    SleepsExactlyWhen(s, op, t, Next(s, op));
    match op
    case Take(i, timeout) => TakeStartsWait(s, i, timeout, t, Next(s, op));
    case Send(i, item, timeout) => SendStartsWait(s, i, item, timeout, t, Next(s, op));
    case Receive(i, out, timeout) => ReceiveStartsWait(s, i, out, timeout, t, Next(s, op));
    case Lock(m, timeout) => LockStartsWait(s, m, timeout, t, Next(s, op));
  }

  /** In step k of the run from s, t stops waiting for what it waits for in s: it gets it
      within the first n ticks, or gives up exactly on the n-th. */
  ghost predicate EndsAt(s: State, ops: seq<Op>, t: TaskId, n: nat, k: nat) {
    && k < |ops| && AllowedRun(s, ops[..k])
    && var m := Run(s, ops[..k]);
       && m.tasks[t].state == BlockedObject && m.tasks[t].wait == s.tasks[t].wait && Ticks(ops[..k]) < n
       && (GotIt(m, ops[k], Next(m, ops[k]), t)
           || (GaveUp(m, ops[k], Next(m, ops[k]), t) && Ticks(ops[..k]) + 1 == n))
  }

  /** A call with a finite timeout (at most 2^31-1 ticks) that can not be served at once ends
      within that many ticks, by exactly one wake: with OK and what it waited for, or with
      TIMEOUT exactly on the last tick. Any other call does not wait at all. */
  lemma TimedCallEnds(s: State, op: Op, ops: seq<Op>, t: TaskId) returns (k: nat)
    requires Reachable(s) && Allowed(s, op) && MayBlock(op) && op.timeout != WAIT_FOREVER && s.current == Some(t)
    requires AllowedRun(Next(s, op), ops) && Ticks(ops) >= Limit(op.timeout)
    ensures if MustWait(s, op) then EndsAt(Next(s, op), ops, t, Limit(op.timeout), k)
            else Next(s, op).tasks[t].state != BlockedObject
  {
    ReachableInv(s);
    SleepsExactlyWhen(s, op, t, Next(s, op));
    k := 0;
    if MustWait(s, op) {
      CallStartsWait(s, op, t);
      NextKeeps(s, op);
      k := TimedWaitEnds(Next(s, op), ops, t);
    }
  }

  // ----- Calls that wait forever

  /** The first step of the run in which t gets what it waits for, if there is one; until then
      it waits on, whatever the clock does. */
  ghost predicate OnlyEndsServed(s: State, ops: seq<Op>, t: TaskId, k: nat) {
    && k <= |ops| && AllowedRun(s, ops[..k])
    && var m := Run(s, ops[..k]);
       && m.tasks[t].state == BlockedObject && m.tasks[t].wait == s.tasks[t].wait
       && (k < |ops| ==> GotIt(m, ops[k], Next(m, ops[k]), t))
  }

  lemma {:induction false} ForeverWaitEnds(s: State, ops: seq<Op>, t: TaskId) returns (k: nat)
    requires Inv(s) && AllowedRun(s, ops) && s.tasks[t].state == BlockedObject && s.tasks[t].delayList == None
    ensures OnlyEndsServed(s, ops, t, k)
    decreases |ops|
  {
    k := 0;
    assert ops[..0] == [];
    if ops != [] {
      var r := Next(s, ops[0]);
      LeavesOrStays(s, ops[0], t, r);
      NextKeeps(s, ops[0]);
      if StillWaiting(s, ops[0], r, t) {
        var j := ForeverWaitEnds(r, ops[1..], t);
        k := j + 1;
        assert ops[..k][1..] == ops[1..][..j] && ops[..k][0] == ops[0];
      }
    }
  }

  /** A call with the wait-forever timeout that can not be served at once never times out. */
  lemma ForeverCallEnds(s: State, op: Op, ops: seq<Op>, t: TaskId) returns (k: nat)
    requires Reachable(s) && Allowed(s, op) && MayBlock(op) && op.timeout == WAIT_FOREVER && s.current == Some(t)
    requires AllowedRun(Next(s, op), ops)
    ensures if MustWait(s, op) then OnlyEndsServed(Next(s, op), ops, t, k)
            else Next(s, op).tasks[t].state != BlockedObject
  {
    ReachableInv(s);
    SleepsExactlyWhen(s, op, t, Next(s, op));
    k := 0;
    if MustWait(s, op) {
      CallStartsWait(s, op, t);
      NextKeeps(s, op);
      k := ForeverWaitEnds(Next(s, op), ops, t);
    }
  }
}
