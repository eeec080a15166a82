/** What the scheduler and the wait engine compute (os_sched.c, and the delay list
    operations of os_time.c they need), as functions on the kernel state. */
module Sched {
  import opened Wrappers
  import opened ReadyBitmap
  import opened KernelState
  import opened TaskLists

  function SetTask(s: State, t: TaskId, task: Task): State {
    s.(tasks := s.tasks[t := task])
  }

  // ----- Delay lists

  function DelayRemove(s: State, t: TaskId): (r: State)
    ensures r == s.(tasks := r.tasks, delayed := r.delayed)
  {
    match s.tasks[t].delayList
    case Some(d) =>
      if t in s.delayed[d] then
        s.(delayed := s.delayed[d := Without(s.delayed[d], t)], tasks := s.tasks[t := s.tasks[t].(delayList := None)])
      else s
    case None => s
  }

  function DelayInsert(s: State, t: TaskId, target: Tick): State {
    var s := DelayRemove(s, t);
    var d: DelayIndex := if target < s.tick then 1 - s.px else s.px;
    var q := s.delayed[d];
    s.(delayed := s.delayed[d := InsertAt(q, WakePos(s.tasks, q, target), t)],
       tasks := s.tasks[t := s.tasks[t].(wakeTick := target, delayList := Some(d))])
  }

  // ----- Ready lists and the switch decision

  function ReadyEnqueue(s: State, t: TaskId): (r: State)
    ensures r == s.(lists := r.lists, bitmap := r.bitmap)
  {
    var l := ReadyList(s.tasks[t].eff);
    if s.tasks[t].state != Ready || t in At(s.lists, l) then s
    else s.(lists := SetAt(s.lists, l, At(s.lists, l) + [t]), bitmap := s.bitmap + {s.tasks[t].eff})
  }

  function Unlink(s: State, p: Priority, q: seq<TaskId>): State {
    s.(lists := SetAt(s.lists, ReadyList(p), q), bitmap := if q == [] then s.bitmap - {p} else s.bitmap)
  }

  function ReadyRemove(s: State, t: TaskId): State {
    var p := s.tasks[t].eff;
    var q := At(s.lists, ReadyList(p));
    if t !in q then s else Unlink(s, p, Without(q, t))
  }

  function ReadyHighest(s: State): (h: int)
    ensures -1 <= h < PRIORITY_COUNT
  {
    HighestIn(s.bitmap, PRIORITY_COUNT - 1)
  }

  function PopHighest(s: State): (State, Option<TaskId>) {
    var p := ReadyHighest(s);
    if p < 0 then (s, None)
    else
      var q := At(s.lists, ReadyList(p));
      if q == [] then (Unlink(s, p, []), None) else (Unlink(s, p, q[1..]), Some(q[0]))
  }

  function CommitSwitch(s: State, next: Option<TaskId>): State {
    match next
    case Some(t) =>
      SetTask(s, t, s.tasks[t].(state := Running, slice := TIME_SLICE_TICKS)).(current := next)
    case None => s.(current := None)
  }

  function PickNext(s: State): State {
    var (s1, next) := PopHighest(s);
    CommitSwitch(s1, next)
  }

  /** The running task goes back to the end of its ready list. */
  function Requeue(s: State, c: TaskId): State {
    ReadyEnqueue(SetTask(s, c, s.tasks[c].(state := Ready)), c)
  }

  predicate CurrentRuns(s: State) {
    s.current.Some? && s.tasks[s.current.value].state == Running
  }

  function SchedStart(s: State): State {
    if s.started then s
    else
      var (s1, next) := PopHighest(s);
      if next == None then s1 else CommitSwitch(s1.(started := true), next)
  }

  function Schedule(s: State, rotate: bool): State {
    if !s.started then s
    else if !CurrentRuns(s) then PickNext(s)
    else
      var c := s.current.value;
      var h := ReadyHighest(s);
      if h > s.tasks[c].eff || (rotate && h == s.tasks[c].eff) then PickNext(Requeue(s, c)) else s
  }

  function YieldCurrent(s: State): State {
    if !CurrentRuns(s) then s else PickNext(Requeue(s, s.current.value))
  }

  function CurrentBlocked(s: State): State {
    if s.current == None || CurrentRuns(s) then s else PickNext(s)
  }

  // ----- Waiting for kernel objects

  function WaitInsert(s: State, l: WaitId, t: TaskId): State {
    var q := At(s.lists, WaitList(l));
    s.(lists := SetAt(s.lists, WaitList(l), InsertAt(q, PriorityPos(s.tasks, q, s.tasks[t].eff), t)))
  }

  /** A ready task moves to the end of the ready list of its new priority. */
  function MoveReady(s: State, t: TaskId, p: Priority): (r: State)
    ensures r == s.(tasks := r.tasks, lists := r.lists, bitmap := r.bitmap)
  {
    ReadyEnqueue(SetTask(ReadyRemove(s, t), t, s.tasks[t].(eff := p)), t)
  }

  /** A waiting task moves to its new place in its waiting list. */
  function MoveWaiting(s: State, t: TaskId, p: Priority, l: WaitId): (r: State)
    requires t in At(s.lists, WaitList(l))
    ensures r == s.(tasks := r.tasks, lists := r.lists)
  {
    var s1 := s.(lists := SetAt(s.lists, WaitList(l), Without(At(s.lists, WaitList(l)), t)));
    WaitInsert(SetTask(s1, t, s.tasks[t].(eff := p)), l, t)
  }

  function SetEffectivePriority(s: State, t: TaskId, p: nat): (r: State)
    ensures r == s.(tasks := r.tasks, lists := r.lists, bitmap := r.bitmap)
  {
    var task := s.tasks[t];
    if p <= IDLE_PRIORITY || p >= PRIORITY_COUNT || task.eff == p then s
    else if task.state == Ready then
      if t in At(s.lists, ReadyList(task.eff)) then MoveReady(s, t, p) else s
    else if task.state == BlockedObject && task.wait.Some? && t in At(s.lists, WaitList(task.wait.value)) then
      MoveWaiting(s, t, p, task.wait.value)
    else SetTask(s, t, task.(eff := p))
  }

  function ClampTimeout(timeout: Tick): Tick {
    if timeout != WAIT_FOREVER && timeout > MAX_DELAY_TICKS then MAX_DELAY_TICKS else timeout
  }

  function Deadline(s: State, timeout: Tick): Tick {
    if timeout == WAIT_FOREVER then WAIT_FOREVER else (s.tick + timeout) % TICK_MODULUS
  }

  /** Task c, which was running, goes to sleep on a waiting list for n ticks or forever. */
  function Park(s: State, c: TaskId, l: WaitId, cell: Message, n: Tick): State {
    var s1 := SetTask(s, c, s.tasks[c].(wait := Some(l), cell := cell, deadline := Deadline(s, n),
                                        result := BadState, state := BlockedObject));
    var s2 := WaitInsert(s1, l, c);
    if n != WAIT_FOREVER then DelayInsert(s2, c, Deadline(s, n))
    else SetTask(s2, c, s2.tasks[c].(delayList := None))
  }

  function WaitBlock(s: State, l: WaitId, cell: Message, timeout: Tick): State {
    if !CurrentRuns(s) then s
    else CurrentBlocked(Park(s, s.current.value, l, cell, ClampTimeout(timeout)))
  }

  function WaitPop(s: State, l: WaitId): (State, Option<TaskId>) {
    var q := At(s.lists, WaitList(l));
    if q == [] then (s, None) else (s.(lists := SetAt(s.lists, WaitList(l), q[1..])), Some(q[0]))
  }

  function Woken(task: Task, result: Status): Task {
    task.(wait := None, deadline := 0, result := result, state := Ready)
  }

  function MakeReady(s: State, t: TaskId, result: Status): (r: State)
    ensures r == s.(tasks := r.tasks, lists := r.lists, bitmap := r.bitmap, delayed := r.delayed)
    ensures s.tasks[t].delayList == None ==> r.delayed == s.delayed
  {
    if s.tasks[t].state != BlockedObject || (s.tasks[t].wait.Some? && t in At(s.lists, WaitList(s.tasks[t].wait.value)))
      then s
    else
      var s1 := DelayRemove(s, t);
      ReadyEnqueue(SetTask(s1, t, Woken(s1.tasks[t], result)), t)
  }

  function MaybePreempt(s: State, woken: TaskId): State {
    if s.current.Some? && s.tasks[woken].eff <= s.tasks[s.current.value].eff then s
    else if s.nesting > 0 then s.(pending := true)
    else Schedule(s, false)
  }

  // ----- Kernel critical sections

  function EnterCritical(s: State): State {
    s.(nesting := (s.nesting + 1) % TICK_MODULUS)
  }

  function ExitCritical(s: State): State {
    if s.nesting == 0 then s
    else
      var s1 := s.(nesting := s.nesting - 1);
      if s1.nesting == 0 && s1.pending then Schedule(s1.(pending := false), false) else s1
  }
}
