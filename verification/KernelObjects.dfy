/** What the calls of os_mutex.c, os_sem.c and os_queue.c compute. */
module KernelObjects {
  import opened Wrappers
  import opened KernelState
  import opened Sched
  import opened Inheritance

  function SetResult(s: State, t: TaskId, r: Status): State {
    SetTask(s, t, s.tasks[t].(result := r))
  }

  // ----- Mutexes

  predicate MutexIsValid(s: State, m: Option<MutexId>) {
    m.Some? && s.mutexes[m.value].used
  }

  /** The owner of the mutex in whose waiting list t is linked. */
  function WaitsFor(s: State, t: TaskId): Option<TaskId> {
    match s.tasks[t].wait
    case Some(MutexList(m)) => if s.mutexes[m].used && t in At(s.lists, WaitList(MutexList(m))) then s.mutexes[m].owner
      else None
    case _ => None
  }

  function GraphOf(s: State): Graph {
    Graph(seq(MAX_TASKS, t requires 0 <= t < MAX_TASKS => s.tasks[t].base),
          seq(MAX_TASKS, t requires 0 <= t < MAX_TASKS => WaitsFor(s, t)))
  }

  function Priorities(s: State): seq<nat> {
    seq(MAX_TASKS, t requires 0 <= t < MAX_TASKS => s.tasks[t].eff)
  }

  /** Sets the effective priority of task k, then k + 1, and so on, to the wanted one. */
  function ApplyFrom(s: State, want: seq<nat>, k: nat): (r: State)
    requires |want| == MAX_TASKS
    ensures r == s.(tasks := r.tasks, lists := r.lists, bitmap := r.bitmap)
    decreases MAX_TASKS - k
  {
    if k >= MAX_TASKS then s else ApplyFrom(SetEffectivePriority(s, k, want[k]), want, k + 1)
  }

  ghost function WaitersChanged(s: State): State {
    ApplyFrom(s, Inherited(GraphOf(s)), 0)
  }

  /** Recomputes priorities after a task started to wait for `owner`, and lets the owner preempt. */
  ghost function BoostOwner(s: State, owner: TaskId): State {
    var s1 := WaitersChanged(s);
    if s1.current.Some? && s1.tasks[owner].eff > s1.tasks[s1.current.value].eff then Schedule(s1, false) else s1
  }

  ghost function LockCurrent(s: State, m: Option<MutexId>, timeout: Tick): State {
    if !CurrentRuns(s) then s
    else
      var c := s.current.value;
      if !MutexIsValid(s, m) then SetResult(s, c, InvalidArgument)
      else if s.mutexes[m.value].owner == None then
        SetResult(s.(mutexes := s.mutexes[m.value := s.mutexes[m.value].(owner := Some(c))]), c, Status.Ok)
      else if s.mutexes[m.value].owner == Some(c) then SetResult(s, c, BadState)
      else if timeout == 0 then SetResult(s, c, Timeout)
      else
        BoostOwner(WaitBlock(s, MutexList(m.value), s.tasks[c].cell, timeout), s.mutexes[m.value].owner.value)
  }

  /** The front waiter leaves the waiting list and becomes the owner. */
  function PassOn(s: State, m: MutexId): (State, Option<TaskId>) {
    var (s1, w) := WaitPop(s, MutexList(m));
    (s1.(mutexes := s1.mutexes[m := s1.mutexes[m].(owner := w)]), w)
  }

  ghost function UnlockCurrent(s: State, m: Option<MutexId>): State {
    if !CurrentRuns(s) then s
    else
      var c := s.current.value;
      if !MutexIsValid(s, m) then SetResult(s, c, InvalidArgument)
      else if s.mutexes[m.value].owner != Some(c) then SetResult(s, c, NotOwner)
      else
        var (s1, w) := PassOn(s, m.value);
        var s2 := WaitersChanged(SetResult(s1, c, Status.Ok));
        if w.Some? then MaybePreempt(MakeReady(s2, w.value, Status.Ok), w.value) else s2
  }

  predicate Owns(s: State, t: TaskId, m: MutexId) {
    s.mutexes[m].used && s.mutexes[m].owner == Some(t)
  }

  /** Releases mutex m if t owns it. */
  function ReleaseOne(s: State, t: TaskId, m: MutexId): (r: State)
    ensures forall k: MutexId :: k != m ==> r.mutexes[k] == s.mutexes[k]
  {
    if !Owns(s, t, m) then s
    else
      var (s1, w) := PassOn(s, m);
      if w.Some? then MakeReady(s1, w.value, Status.Ok) else s1
  }

  /** Releases the mutexes of t with index k or above. */
  function ReleaseFrom(s: State, t: TaskId, k: nat): State
    decreases MAX_MUTEXES - k
  {
    if k >= MAX_MUTEXES then s else ReleaseFrom(ReleaseOne(s, t, k), t, k + 1)
  }

  ghost function ReleaseTask(s: State, t: TaskId): State {
    var r := ReleaseFrom(s, t, 0);
    if exists m: MutexId :: Owns(s, t, m) then WaitersChanged(r) else r
  }

  ghost function TerminateCurrent(s: State): State {
    if !CurrentRuns(s) then s
    else
      var c := s.current.value;
      var s1 := ReleaseTask(s, c);
      PickNext(SetTask(s1, c, s1.tasks[c].(state := Terminated)))
  }

  // ----- Semaphores

  predicate SemIsValid(s: State, i: Option<SemId>) {
    i.Some? && s.sems[i.value].used && s.sems[i.value].maximum > 0 && s.sems[i.value].count <= s.sems[i.value].maximum
  }

  function SetSem(s: State, i: SemId, count: Tick): State {
    s.(sems := s.sems[i := s.sems[i].(count := count)])
  }

  function TakeCurrent(s: State, i: Option<SemId>, timeout: Tick): State {
    if !CurrentRuns(s) then s
    else
      var c := s.current.value;
      if !SemIsValid(s, i) then SetResult(s, c, InvalidArgument)
      else if s.sems[i.value].count > 0 then SetResult(SetSem(s, i.value, s.sems[i.value].count - 1), c, Status.Ok)
      else if timeout == 0 then SetResult(s, c, Timeout)
      else WaitBlock(s, SemList(i.value), s.tasks[c].cell, timeout)
  }

  /** The new state, the status and the task that got the unit directly, if any. */
  function GiveAny(s: State, i: Option<SemId>): (State, Status, Option<TaskId>) {
    if !SemIsValid(s, i) then (s, InvalidArgument, None)
    else
      var (s1, w) := WaitPop(s, SemList(i.value));
      if w.Some? then (MakeReady(s1, w.value, Status.Ok), Status.Ok, w)
      else if s.sems[i.value].count >= s.sems[i.value].maximum then (s, LimitReached, None)
      else (SetSem(s, i.value, s.sems[i.value].count + 1), Status.Ok, None)
  }

  function GiveCurrent(s: State, i: Option<SemId>): State {
    if !CurrentRuns(s) then s
    else
      var (s1, status, w) := GiveAny(s, i);
      var s2 := SetResult(s1, s.current.value, status);
      if w.Some? then MaybePreempt(s2, w.value) else s2
  }

  function GiveFromIsr(s: State, i: Option<SemId>): State {
    var (s1, _, w) := GiveAny(EnterCritical(s), i);
    ExitCritical(if w.Some? then MaybePreempt(s1, w.value) else s1)
  }

  /** A task taken off a waiting list is told that it succeeded and may preempt. */
  function Serve(s: State, w: TaskId): State {
    MaybePreempt(MakeReady(s, w, Status.Ok), w)
  }

  // ----- Message queues

  predicate QueueIsValid(s: State, i: Option<QueueId>) {
    && i.Some?
    && var q := s.queues[i.value];
       q.used && q.capacity > 0 && |q.buffer| == q.capacity && q.count <= q.capacity && q.head < q.capacity
         && q.tail < q.capacity
  }

  /** Writes at the tail of the ring and advances it. */
  function RingPut(q: Queue, item: Message): Queue
    requires q.capacity > 0 && q.tail < |q.buffer|
  {
    q.(buffer := q.buffer[q.tail := item], tail := (q.tail + 1) % q.capacity, count := q.count + 1)
  }

  /** Drops the message at the head of the ring. */
  function RingDrop(q: Queue): Queue
    requires q.capacity > 0 && q.count > 0
  {
    q.(head := (q.head + 1) % q.capacity, count := q.count - 1)
  }

  function SetQueue(s: State, i: QueueId, q: Queue): State {
    s.(queues := s.queues[i := q])
  }

  function SetCell(s: State, t: TaskId, item: Message): State {
    SetTask(s, t, s.tasks[t].(cell := item))
  }

  function SendCurrent(s: State, i: Option<QueueId>, item: Option<Message>, timeout: Tick): State {
    if !CurrentRuns(s) then s
    else
      var c := s.current.value;
      if !QueueIsValid(s, i) || item == None then SetResult(s, c, InvalidArgument)
      else
        var (s1, receiver) := WaitPop(s, ReceiveList(i.value));
        if receiver.Some? then
          Serve(SetResult(SetCell(s1, receiver.value, item.value), c, Status.Ok), receiver.value)
        else if s.queues[i.value].count < s.queues[i.value].capacity then
          SetResult(SetQueue(s, i.value, RingPut(s.queues[i.value], item.value)), c, Status.Ok)
        else if timeout == 0 then SetResult(s, c, Timeout)
        else WaitBlock(s, SendList(i.value), item.value, timeout)
  }

  function ReceiveCurrent(s: State, i: Option<QueueId>, out: bool, timeout: Tick): State {
    if !CurrentRuns(s) then s
    else
      var c := s.current.value;
      if !QueueIsValid(s, i) || !out then SetResult(s, c, InvalidArgument)
      else if s.queues[i.value].count > 0 then
        var q := s.queues[i.value];
        var s1 := SetQueue(SetCell(s, c, q.buffer[q.head]), i.value, RingDrop(q));
        var (s2, sender) := WaitPop(s1, SendList(i.value));
        if sender.Some? then
          var s3 := SetQueue(s2, i.value, RingPut(RingDrop(q), s2.tasks[sender.value].cell));
          Serve(SetResult(s3, c, Status.Ok), sender.value)
        else SetResult(s2, c, Status.Ok)
      else if timeout == 0 then SetResult(s, c, Timeout)
      else WaitBlock(s, ReceiveList(i.value), s.tasks[c].cell, timeout)
  }
}
