/** What os_time.c computes: delaying a task and advancing the clock. */
module Time {
  import opened Wrappers
  import opened KernelState
  import opened TaskLists
  import opened Sched
  import opened KernelObjects

  /** (int32_t)(now - target) >= 0 */
  predicate TickReached(now: Tick, target: Tick) {
    (now - target) % TICK_MODULUS < TICK_MODULUS / 2
  }

  /** Task c, which was running, goes to sleep for n ticks. */
  function Sleep(s: State, c: TaskId, n: Tick): State {
    DelayInsert(SetTask(s, c, s.tasks[c].(state := BlockedDelay)), c, (s.tick + n) % TICK_MODULUS)
  }

  function ClampDelay(ticks: Tick): Tick {
    if ticks > MAX_DELAY_TICKS then MAX_DELAY_TICKS else ticks
  }

  function DelayCurrent(s: State, ticks: Tick): State {
    if !CurrentRuns(s) then s
    else if ticks == 0 then YieldCurrent(s)
    else CurrentBlocked(Sleep(s, s.current.value, ClampDelay(ticks)))
  }

  function AdvanceClock(s: State): State {
    var now := (s.tick + 1) % TICK_MODULUS;
    s.(tick := now, px := if now == 0 then 1 - s.px else s.px)
  }

  predicate HeadIsDue(s: State) {
    s.delayed[s.px] != [] && TickReached(s.tick, s.tasks[s.delayed[s.px][0]].wakeTick)
  }

  /** The head of the current delay list leaves it. */
  function PopDelayed(s: State): (r: State)
    requires s.delayed[s.px] != []
    ensures r == s.(tasks := r.tasks, delayed := r.delayed) && |r.delayed[r.px]| < |s.delayed[s.px]|
    ensures r.tasks[s.delayed[s.px][0]].delayList == None
  {
    var q := s.delayed[s.px];
    s.(delayed := s.delayed[s.px := q[1..]], tasks := s.tasks[q[0] := s.tasks[q[0]].(delayList := None)])
  }

  /** A timed-out waiter leaves the waiting list of its object. */
  function LeaveWaitList(s: State, t: TaskId): (r: State)
    ensures r == s.(lists := r.lists)
  {
    var w := s.tasks[t].wait;
    if w.Some? && t in At(s.lists, WaitList(w.value)) then
      s.(lists := SetAt(s.lists, WaitList(w.value), Without(At(s.lists, WaitList(w.value)), t)))
    else s
  }

  ghost function ExpireHead(s: State): (r: State)
    requires s.delayed[s.px] != []
    ensures r.px == s.px && r.tick == s.tick && r.current == s.current
    ensures |r.delayed[r.px]| < |s.delayed[s.px]|
  {
    var t := s.delayed[s.px][0];
    var s1 := PopDelayed(s);
    if s1.tasks[t].state == BlockedDelay then ReadyEnqueue(SetTask(s1, t, s1.tasks[t].(state := Ready)), t)
    else if s1.tasks[t].state == BlockedObject then
      var s2 := MakeReady(LeaveWaitList(s1, t), t, Timeout);
      if s.tasks[t].wait.Some? && s.tasks[t].wait.value.MutexList? then WaitersChanged(s2) else s2
    else s1
  }

  ghost predicate Outranks(s: State, t: TaskId) {
    s.current == None || s.tasks[t].eff > s.tasks[s.current.value].eff
  }

  ghost function ExpireLoop(s: State, woke: bool): (State, bool)
    decreases |s.delayed[s.px]|
  {
    if !HeadIsDue(s) then (s, woke)
    else
      var s1 := ExpireHead(s);
      ExpireLoop(s1, woke || Outranks(s1, s.delayed[s.px][0]))
  }

  function SpendSlice(s: State): State {
    match s.current
    case Some(c) => if s.tasks[c].slice > 0 then SetTask(s, c, s.tasks[c].(slice := s.tasks[c].slice - 1)) else s
    case None => s
  }

  /** The switch decision at the end of a tick. */
  function EndTick(s: State, woke: bool): State {
    if (s.current == None && ReadyHighest(s) >= 0) || woke then Schedule(s, false)
    else if s.current.Some? && s.tasks[s.current.value].slice == 0 then
      var r := Schedule(s, true);
      if s.started && r.current == s.current
      then SetTask(r, s.current.value, r.tasks[s.current.value].(slice := TIME_SLICE_TICKS)) else r
    else s
  }

  ghost function TimeTick(s: State): State {
    var (s1, woke) := ExpireLoop(AdvanceClock(s), false);
    EndTick(SpendSlice(s1), woke)
  }
}
