/** The kernel state: TCB pool, list headers, delay lists, clock and kernel objects. */
module KernelState {
  import opened Wrappers
  import opened ReadyBitmap

  const MAX_TASKS: nat := 8
  const MAX_SEMAPHORES: nat := 4
  const MAX_QUEUES: nat := 4
  const MAX_MUTEXES: nat := 4
  const IDLE_PRIORITY: Priority := 0
  const TIME_SLICE_TICKS: nat := 200
  const TICK_MODULUS: nat := 0x1_0000_0000
  const MAX_DELAY_TICKS: Tick := 0x7FFF_FFFF
  const WAIT_FOREVER: Tick := 0xFFFF_FFFF

  type TaskId = t: nat | t < MAX_TASKS
  type SemId = i: nat | i < MAX_SEMAPHORES
  type QueueId = i: nat | i < MAX_QUEUES
  type MutexId = i: nat | i < MAX_MUTEXES
  /** A 32-bit unsigned quantity. */
  type Tick = n: nat | n < TICK_MODULUS
  /** Index into the pool of two delay lists. */
  type DelayIndex = d: nat | d < 2
  type Message = seq<bv8>

  datatype TaskState = Unused | Ready | Running | BlockedDelay | BlockedObject | Terminated

  datatype Status = Ok | InvalidArgument | LimitReached | BadState | Timeout | NotOwner

  /** The waiting lists: the name says what is waited for and at which object. */
  datatype WaitId =
    | SemList(sem: SemId)
    | SendList(queue: QueueId)
    | ReceiveList(queue: QueueId)
    | MutexList(mutex: MutexId)

  /** Every list a schedule node can be linked in. */
  datatype ListId = ReadyList(priority: Priority) | WaitList(id: WaitId)

  /** A task control block.  `cell` stands for the message buffer a task hands to a queue call. */
  datatype Task = Task(
    base: Priority,
    eff: Priority,
    state: TaskState,
    wakeTick: Tick,
    slice: nat,
    wait: Option<WaitId>,
    cell: Message,
    deadline: Tick,
    result: Status,
    delayList: Option<DelayIndex>)

  const UNUSED_TASK := Task(0, 0, Unused, 0, 0, None, [], 0, Status.Ok, None)

  type TaskPool = s: seq<Task> | |s| == MAX_TASKS witness seq(MAX_TASKS, _ => UNUSED_TASK)

  /** List headers by name; a list that was never touched is empty. */
  type Lists = map<ListId, seq<TaskId>>
  type DelayPair = s: seq<seq<TaskId>> | |s| == 2 witness [[], []]

  datatype Semaphore = Semaphore(used: bool, count: Tick, maximum: Tick)
  type SemPool = s: seq<Semaphore> | |s| == MAX_SEMAPHORES witness seq(MAX_SEMAPHORES, _ => Semaphore(false, 0, 0))

  datatype Queue = Queue(used: bool, buffer: seq<Message>, capacity: nat, head: nat, tail: nat, count: nat)
  type QueuePool = s: seq<Queue> | |s| == MAX_QUEUES witness seq(MAX_QUEUES, _ => Queue(false, [], 0, 0, 0, 0))

  datatype Mutex = Mutex(used: bool, owner: Option<TaskId>)
  type MutexPool = s: seq<Mutex> | |s| == MAX_MUTEXES witness seq(MAX_MUTEXES, _ => Mutex(false, None))

  datatype State = State(
    tasks: TaskPool,
    taskCount: nat,
    lists: Lists,
    bitmap: set<Priority>,     // priorities with a non-empty ready list
    delayed: DelayPair,
    px: DelayIndex,            // which delay list serves the current tick epoch
    tick: Tick,
    current: Option<TaskId>,
    nesting: Tick,
    pending: bool,
    started: bool,
    idle: Option<TaskId>,
    sems: SemPool,
    queues: QueuePool,
    mutexes: MutexPool)

  function At(lists: Lists, l: ListId): seq<TaskId> {
    if l in lists then lists[l] else []
  }

  function SetAt(lists: Lists, l: ListId, q: seq<TaskId>): (r: Lists)
    ensures forall k: ListId :: At(r, k) == if k == l then q else At(lists, k)
  {
    lists[l := q]
  }

  predicate IsIdle(task: Task) {
    task.base == IDLE_PRIORITY
  }

  predicate IsBlocked(task: Task) {
    task.state == BlockedDelay || task.state == BlockedObject
  }
}
