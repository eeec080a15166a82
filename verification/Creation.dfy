/** What the create calls and the start of the scheduler make of their arguments. */
module Creation {
  import opened Wrappers
  import opened ReadyBitmap
  import opened KernelState
  import opened Placement
  import opened Invariants
  import opened QueueRing
  import opened Machine

  /** The pool has one more task, which is ready with priority p behind all others of priority p. */
  predicate TaskAdded(s: State, r: State, p: Priority) {
    && s.taskCount < MAX_TASKS
    && var t: TaskId := s.taskCount;
       var task := r.tasks[t];
       && task == UNUSED_TASK.(base := p, eff := p, state := Ready, result := task.result)
       && r == s.(tasks := s.tasks[t := task], taskCount := t + 1, idle := r.idle, lists := r.lists, bitmap := r.bitmap)
       && At(r.lists, ReadyList(p)) == At(s.lists, ReadyList(p)) + [t]
  }

  /** Tasks with a priority above that of Idle can be created before the start while there is room. */
  lemma CreateTaskReplies(s: State, priority: nat, r: State)
    requires Inv(s) && r == Next(s, Op.CreateTask(priority))
    ensures if !s.started && 0 < priority < 8 && s.taskCount < MAX_TASKS
            then TaskAdded(s, r, priority) && r.idle == s.idle && forall p: Priority :: p != priority ==>
                   At(r.lists, ReadyList(p)) == At(s.lists, ReadyList(p))
            else r == s
  {
    if s.taskCount < MAX_TASKS { NotListedYet(s, s.taskCount); }
  }

  lemma NotListedYet(s: State, t: TaskId)
    requires Inv(s) && t >= s.taskCount
    ensures s.tasks[t] == UNUSED_TASK && forall l: ListId :: t !in At(s.lists, l)
  {
    assert Coherent(s.tasks[t]);
  }

  /** Idle is created once, with priority 0, if there is room before the start. */
  lemma EnsureIdleReplies(s: State, r: State)
    requires Inv(s) && r == Next(s, Op.EnsureIdle)
    ensures if s.idle == None && !s.started && s.taskCount < MAX_TASKS
            then TaskAdded(s, r, 0) && r.idle == Some(s.taskCount)
            else r == s
  {
    if s.taskCount < MAX_TASKS { NotListedYet(s, s.taskCount); }
  }

  /** Objects can be created before the start in an unused slot; they begin as asked for. */
  lemma CreateObjectReplies(s: State, op: Op, r: State)
    requires r == Next(s, op)
    ensures op.CreateSem? ==>
              if !s.started && !s.sems[op.sem].used && op.initial <= op.maximum && op.maximum > 0
              then r == s.(sems := r.sems) && r.sems == s.sems[op.sem := Semaphore(true, op.initial, op.maximum)]
              else r == s
    ensures op.CreateQueue? ==>
              if !s.started && !s.queues[op.queue].used && op.storage != []
              then r == s.(queues := s.queues[op.queue := r.queues[op.queue]])
                && EmptyQueue(r.queues[op.queue], |op.storage|)
              else r == s
    ensures op.CreateMutex? ==>
              if !s.started && !s.mutexes[op.mutex].used
              then r == s.(mutexes := s.mutexes[op.mutex := Mutex(true, None)])
              else r == s
  {
  }

  predicate EmptyQueue(q: Queue, capacity: nat) {
    q.used && q.capacity == capacity && QueueFits(q) && capacity > 0 && Contents(q) == []
  }

  /** The scheduler starts once, with the first task of the highest priority that is ready; without
      a ready task it does not start. */
  lemma StartReplies(s: State, t: TaskId, r: State)
    requires Inv(s) && r == Next(s, Op.Start) && s.tasks[t].state == Ready
    requires forall u: TaskId :: s.tasks[u].state == Ready ==> s.tasks[u].eff <= s.tasks[t].eff
    ensures if s.started then r == s
            else var q := At(s.lists, ReadyList(s.tasks[t].eff)); r.started && q != [] && r.current == Some(q[0])
  {
    assert t in At(s.lists, ReadyList(s.tasks[t].eff));
    ReadyHighestIsHighest(s);
  }

  lemma NothingToStart(s: State, r: State)
    requires Inv(s) && r == Next(s, Op.Start) && forall u: TaskId :: s.tasks[u].state != Ready
    ensures r == s
  {
    ReadyHighestIsHighest(s);
  }
}
