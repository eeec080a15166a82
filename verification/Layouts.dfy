/** Every state that satisfies the invariant has a layout as linked lists. */
module Layouts {
  import opened ReadyBitmap
  import BitmapWord
  import opened KernelState
  import opened TaskLists
  import opened Invariants
  import opened Setup
  import opened Machine
  import opened IntrusiveList
  import opened Validate
  import opened HeapLists
  import opened Representation

  function WaitIds(): seq<WaitId> {
    seq(MAX_SEMAPHORES, i requires 0 <= i < MAX_SEMAPHORES => SemList(i))
    + seq(MAX_QUEUES, i requires 0 <= i < MAX_QUEUES => SendList(i))
    + seq(MAX_QUEUES, i requires 0 <= i < MAX_QUEUES => ReceiveList(i))
    + seq(MAX_MUTEXES, i requires 0 <= i < MAX_MUTEXES => MutexList(i))
  }

  lemma WaitIdsComplete(w: WaitId)
    ensures w in WaitIds()
  {
    var ws := WaitIds();
    match w
    case SemList(i) => assert ws[i] == w;
    case SendList(i) => assert ws[MAX_SEMAPHORES + i] == w;
    case ReceiveList(i) => assert ws[MAX_SEMAPHORES + MAX_QUEUES + i] == w;
    case MutexList(i) => assert ws[MAX_SEMAPHORES + 2 * MAX_QUEUES + i] == w;
  }

  function Places(): seq<Place> {
    var ws := WaitIds();
    seq(PRIORITY_COUNT, p requires 0 <= p < PRIORITY_COUNT => Scheduled(ReadyList(p)))
    + seq(|ws|, i requires 0 <= i < |ws| => Scheduled(WaitList(ws[i])))
    + [Delayed(0), Delayed(1)]
  }

  lemma PlacesComplete(k: Place)
    ensures k in Places()
  {
    var ws, ks := WaitIds(), Places();
    match k
    case Scheduled(ReadyList(p)) => assert ks[p] == k;
    case Scheduled(WaitList(w)) =>
      WaitIdsComplete(w);
      var i :| 0 <= i < |ws| && ws[i] == w;
      assert ks[PRIORITY_COUNT + i] == k;
    case Delayed(d) => assert ks[PRIORITY_COUNT + |ws| + d] == k;
  }

  /** The position of a place in the pool of headers. */
  function PlaceIndex(k: Place): (i: nat)
    ensures i < PlaceCount()
  {
    match k
    case Scheduled(ReadyList(p)) => p
    case Scheduled(WaitList(SemList(i))) => PRIORITY_COUNT + i
    case Scheduled(WaitList(SendList(i))) => PRIORITY_COUNT + MAX_SEMAPHORES + i
    case Scheduled(WaitList(ReceiveList(i))) => PRIORITY_COUNT + MAX_SEMAPHORES + MAX_QUEUES + i
    case Scheduled(WaitList(MutexList(i))) => PRIORITY_COUNT + MAX_SEMAPHORES + 2 * MAX_QUEUES + i
    case Delayed(d) => PRIORITY_COUNT + MAX_SEMAPHORES + 2 * MAX_QUEUES + MAX_MUTEXES + d
  }

  function PlaceCount(): nat {
    PRIORITY_COUNT + MAX_SEMAPHORES + 2 * MAX_QUEUES + MAX_MUTEXES + 2
  }

  // ----- Empty pools

  method NewTcbs() returns (tasks: Tcbs)
    ensures forall t: TaskId :: tasks[t] != null && fresh(tasks[t]) && WiredTcb(tasks[t], t)
    ensures forall t: TaskId :: var c := tasks[t];
              fresh(c.scheduleNode) && fresh(c.delayNode) && !c.scheduleNode.linked && !c.delayNode.linked
  {
    tasks := seq(MAX_TASKS, _ => null);
    var t := 0;
    while t < MAX_TASKS
      invariant t <= MAX_TASKS
      invariant forall u: TaskId :: u < t ==> tasks[u] != null && fresh(tasks[u]) && WiredTcb(tasks[u], u)
      invariant forall u: TaskId :: u < t ==> var c := tasks[u];
                  fresh(c.scheduleNode) && fresh(c.delayNode) && !c.scheduleNode.linked && !c.delayNode.linked
    {
      var c := new Tcb(t);
      tasks := tasks[t := c];
      t := t + 1;
    }
  }

  /** Empty and different headers. */
  ghost predicate Empties(lists: seq<List>)
    reads *
  {
    && (forall i :: 0 <= i < |lists| ==> lists[i].Valid() && lists[i].nodes == [])
    && (forall i, j :: 0 <= i < j < |lists| ==> lists[i] != lists[j])
  }

  method NewLists(n: nat) returns (lists: seq<List>)
    ensures |lists| == n && Empties(lists) && fresh(lists)
  {
    lists := [];
    while |lists| < n
      invariant |lists| <= n && Empties(lists) && fresh(lists)
    {
      var l := new List();
      lists := lists + [l];
    }
  }

  /** The state of s with all lists empty. */
  function Emptied(s: State): (e: State)
    ensures forall k: Place :: QueueAt(e, k) == []
  {
    s.(lists := map[], delayed := [[], []])
  }

  /** A kernel with the given TCBs and headers. */
  method MakeHeap(tasks: Tcbs, pool: seq<List>) returns (h: KernelHeap)
    requires |pool| == PlaceCount() && forall t: TaskId :: tasks[t] != null
    ensures fresh(h) && Complete(h) && Untouched(h) && h.tasks == tasks
    ensures forall k: Place :: HeaderOf(h, k) == pool[PlaceIndex(k)]
    ensures h.tcbs == (set c: Tcb | c in tasks)
    ensures h.nodes == (set c: Tcb | c in tasks :: c.scheduleNode) + (set c: Tcb | c in tasks :: c.delayNode)
    ensures forall k: Place :: HeaderOf(h, k) in h.headers
    ensures forall l :: l in h.headers ==> l in pool
  {
    var ready := seq(PRIORITY_COUNT, p requires 0 <= p < PRIORITY_COUNT => pool[PlaceIndex(Scheduled(ReadyList(p)))]);
    var delayed := seq(2, d requires 0 <= d < 2 => pool[PlaceIndex(Delayed(d))]);
    var waits := map w | w in WaitIds() :: pool[PlaceIndex(Scheduled(WaitList(w)))];
    forall w: WaitId ensures w in waits { WaitIdsComplete(w); }
    h := new KernelHeap(tasks, ready, delayed, waits);
    forall k: Place ensures HeaderOf(h, k) == pool[PlaceIndex(k)] && HeaderOf(h, k) in h.headers { }
  }

  /** A kernel with empty lists. */
  method NewHeap(ghost s: State) returns (h: KernelHeap)
    ensures fresh(h) && LaidOut(h, Emptied(s)) && Untouched(h)
    ensures fresh(h.headers) && fresh(h.nodes) && fresh(h.tcbs)
  {
    var tasks := NewTcbs();
    var pool := NewLists(PlaceCount());
    h := MakeHeap(tasks, pool);
    forall t: TaskId ensures h.tasks[t] in h.tcbs { assert tasks[t] in tasks; }
    EmptyIsLaidOut(h, Emptied(s), pool);
  }

  /** The kernel right after its headers and TCBs were set up. */
  ghost predicate Untouched(h: KernelHeap)
    reads h
  {
    |h.delayed| == 2 && h.initialized && h.taskCount == 0 && h.bitmap == 0 && h.px == h.delayed[0]
      && h.overflow == h.delayed[1] && h.current == null
  }

  lemma EmptyIsLaidOut(h: KernelHeap, e: State, pool: seq<List>)
    requires Complete(h) && |pool| == PlaceCount() && Empties(pool)
    requires forall k: Place :: HeaderOf(h, k) == pool[PlaceIndex(k)] && QueueAt(e, k) == []
    requires forall t: TaskId :: WiredTcb(h.tasks[t], t)
    requires forall t: TaskId :: h.tasks[t] in h.tcbs
    requires forall t: TaskId, k: Place :: !NodeOf(h, t, k).linked && NodeOf(h, t, k) in h.nodes
    requires forall k: Place :: HeaderOf(h, k) in h.headers
    ensures LaidOut(h, e)
  {
    forall j: Place, k: Place | HeaderOf(h, j) == HeaderOf(h, k) ensures j == k { DifferentIndex(j, k); }
    forall t: TaskId, k: Place ensures !InSome(e, t, k.Scheduled?) { }
    forall k: Place ensures Stored(h, e, k) { assert NodesAt(h, QueueAt(e, k), k) == []; }
  }

  lemma DifferentIndex(j: Place, k: Place)
    ensures PlaceIndex(j) == PlaceIndex(k) <==> j == k
  {
  }

  // ----- Filling the lists

  /** The queues of e are the first parts of those of s. */
  ghost predicate Partial(e: State, s: State) {
    forall k: Place :: QueueAt(e, k) <= QueueAt(s, k)
  }

  ghost predicate AllDistinct(s: State) {
    Separate(s) && forall k: Place :: NoDuplicates(QueueAt(s, k))
  }

  lemma NotYetListed(h: KernelHeap, e: State, s: State, k: Place, t: TaskId)
    requires LaidOut(h, e) && Partial(e, s) && AllDistinct(s)
    requires |QueueAt(e, k)| < |QueueAt(s, k)| && t == QueueAt(s, k)[|QueueAt(e, k)|]
    ensures !NodeOf(h, t, k).linked
  {
    forall j: Place | j.Scheduled? == k.Scheduled? ensures t !in QueueAt(e, j) { InOnePlace(e, s, j, k, t); }
    assert !InSome(e, t, k.Scheduled?);
  }

  lemma InOnePlace(e: State, s: State, j: Place, k: Place, t: TaskId)
    requires QueueAt(e, j) <= QueueAt(s, j) && AllDistinct(s) && j.Scheduled? == k.Scheduled?
    requires QueueAt(e, k) <= QueueAt(s, k) && |QueueAt(e, k)| < |QueueAt(s, k)| && t == QueueAt(s, k)[|QueueAt(e, k)|]
    ensures t !in QueueAt(e, j)
  {
    assert t in QueueAt(s, k) && NoDuplicates(QueueAt(s, k));
    assert t in QueueAt(e, j) ==> t in QueueAt(s, j);
  }

  /** One more task of the queue of k is linked. */
  method FillOne(h: KernelHeap, ghost e: State, ghost s: State, k: Place, t: TaskId) returns (ghost r: State)
    requires LaidOut(h, e) && Partial(e, s) && AllDistinct(s)
    requires |QueueAt(e, k)| < |QueueAt(s, k)| && t == QueueAt(s, k)[|QueueAt(e, k)|]
    modifies h.headers, h.nodes
    ensures LaidOut(h, r) && Partial(r, s) && r == SetQueueAt(e, k, QueueAt(e, k) + [t])
  {
    NotYetListed(h, e, s, k, t);
    Append(h, e, HeaderOf(h, k), NodeOf(h, t, k), k, t);
    r := SetQueueAt(e, k, QueueAt(e, k) + [t]);
  }

  method FillList(h: KernelHeap, ghost e: State, ghost s: State, k: Place, q: seq<TaskId>) returns (ghost r: State)
    requires LaidOut(h, e) && Partial(e, s) && AllDistinct(s) && q == QueueAt(s, k) && QueueAt(e, k) == []
    modifies h.headers, h.nodes
    ensures LaidOut(h, r) && Partial(r, s) && QueueAt(r, k) == q
            && forall j: Place :: j != k ==> QueueAt(r, j) == QueueAt(e, j)
  {
    r := e;
    var i := 0;
    while i < |q|
      invariant i <= |q| && LaidOut(h, r) && Partial(r, s) && QueueAt(r, k) == q[..i]
      invariant forall j: Place :: j != k ==> QueueAt(r, j) == QueueAt(e, j)
    {
      r := FillOne(h, r, s, k, q[i]);
      i := i + 1;
    }
  }

  lemma {:induction false} PlacesDiffer(i: nat, j: nat)
    requires i < |Places()| && j < |Places()|
    ensures Places()[i] == Places()[j] ==> i == j
  {
    PlaceAt(i);
    PlaceAt(j);
  }

  lemma PlaceAt(i: nat)
    requires i < |Places()|
    ensures PlaceIndex(Places()[i]) == i
  {
  }

  method FillLists(h: KernelHeap, s: State) returns (ghost r: State)
    requires LaidOut(h, Emptied(s)) && AllDistinct(s)
    modifies h.headers, h.nodes
    ensures LaidOut(h, s)
  {
    r := Emptied(s);
    var ks := Places();
    var i := 0;
    while i < |ks|
      invariant i <= |ks| && LaidOut(h, r) && Partial(r, s)
      invariant forall j :: 0 <= j < i ==> QueueAt(r, ks[j]) == QueueAt(s, ks[j])
      invariant forall j :: i <= j < |ks| ==> QueueAt(r, ks[j]) == []
    {
      forall j: nat | j < |ks| ensures ks[j] == ks[i] ==> j == i { PlacesDiffer(i, j); }
      r := FillList(h, r, s, ks[i], QueueAt(s, ks[i]));
      i := i + 1;
    }
    forall k: Place ensures QueueAt(r, k) == QueueAt(s, k) { PlacesComplete(k); }
    SameLayout(h, r, s);
  }

  // ----- Writing the fields

  method ShowTask(h: KernelHeap, s: State, t: TaskId)
    requires LaidOut(h, s)
    modifies TcbOf(h, t)`state, TcbOf(h, t)`base, TcbOf(h, t)`eff, TcbOf(h, t)`wakeTick, TcbOf(h, t)`deadline
    modifies TcbOf(h, t)`waiting, TcbOf(h, t)`delayList, TcbOf(h, t)`waitList
    ensures LaidOut(h, s) && Shows(h, s, t)
  {
    ShowValues(h, s, t);
    ShowPointers(h, s, t);
  }

  method ShowValues(h: KernelHeap, s: State, t: TaskId)
    requires LaidOut(h, s)
    modifies TcbOf(h, t)`state, TcbOf(h, t)`base, TcbOf(h, t)`eff, TcbOf(h, t)`wakeTick, TcbOf(h, t)`deadline
    ensures LaidOut(h, s) && ShowsValues(TcbOf(h, t), s.tasks[t])
  {
    var c, task := TcbOf(h, t), s.tasks[t];
    c.state, c.base, c.eff, c.wakeTick, c.deadline := task.state, task.base, task.eff, task.wakeTick, task.deadline;
    LayoutKept(Laid(h, s));
  }

  method ShowPointers(h: KernelHeap, s: State, t: TaskId)
    requires LaidOut(h, s)
    modifies TcbOf(h, t)`waiting, TcbOf(h, t)`delayList, TcbOf(h, t)`waitList
    ensures LaidOut(h, s) && ShowsPointers(h, TcbOf(h, t), s.tasks[t])
  {
    var c, task := TcbOf(h, t), s.tasks[t];
    c.waiting := task.wait.Some?;
    c.delayList := if task.delayList.Some? then h.delayed[task.delayList.value] else null;
    c.waitList := if task.wait.Some? then h.waits[task.wait.value] else null;
    LayoutKept(Laid(h, s));
  }

  lemma OtherTcbs(h: KernelHeap, s: State, t: TaskId)
    requires LaidOut(h, s)
    ensures TcbOf(h, t) in h.tcbs && forall u: TaskId :: u != t ==> TcbOf(h, u) != TcbOf(h, t)
  {
    forall u: TaskId | u != t ensures TcbOf(h, u) != TcbOf(h, t) {
      assert WiredTcb(h.tasks[u], u) && WiredTcb(h.tasks[t], t);
    }
  }

  /** Everything the heap says about tasks before t is right. */
  ghost predicate ShowsBelow(h: KernelHeap, s: State, t: nat)
    requires Complete(h)
    reads h, h.tasks
  {
    forall u: TaskId :: u < t ==> Shows(h, s, u)
  }

  method ShowNext(h: KernelHeap, s: State, t: TaskId)
    requires LaidOut(h, s) && ShowsBelow(h, s, t)
    modifies h.tcbs
    ensures LaidOut(h, s) && ShowsBelow(h, s, t + 1) && h.tcbs == old(h.tcbs)
  {
    OtherTcbs(h, s, t);
    ShowTask(h, s, t);
    forall u: TaskId | u < t ensures Shows(h, s, u) { assert old(Shows(h, s, u)); }
  }

  method ShowTasks(h: KernelHeap, s: State)
    requires LaidOut(h, s)
    modifies h.tcbs
    ensures LaidOut(h, s) && ShowsBelow(h, s, MAX_TASKS)
  {
    var t := 0;
    while t < MAX_TASKS
      invariant t <= MAX_TASKS && LaidOut(h, s) && ShowsBelow(h, s, t) && h.tcbs == old(h.tcbs)
    {
      ShowNext(h, s, t);
      t := t + 1;
    }
  }

  method WordOf(bits: set<Priority>) returns (word: bv8)
    ensures BitmapWord.Bits(word) == bits
  {
    word := 0;
    assert forall p: Priority :: !BitmapWord.HasBit(0, p);
    var p := 0;
    while p < PRIORITY_COUNT
      invariant p <= PRIORITY_COUNT && BitmapWord.Bits(word) == set q: Priority | q < p && q in bits
    {
      if p in bits { word := BitmapWord.SetBit(word, p); }
      p := p + 1;
    }
  }

  method ShowScalars(h: KernelHeap, s: State)
    requires LaidOut(h, s) && h.initialized && forall u: TaskId :: Shows(h, s, u)
    modifies h`taskCount, h`bitmap, h`px, h`overflow, h`current
    ensures Represents(h, s)
  {
    var word := WordOf(s.bitmap);
    h.taskCount, h.bitmap := s.taskCount, word;
    h.px, h.overflow := h.delayed[s.px], h.delayed[1 - s.px];
    h.current := if s.current.Some? then h.tasks[s.current.value] else null;
    assert LaidOut(h, s) by { LayoutKept(Laid(h, s)); }
    forall u: TaskId ensures Shows(h, s, u) { assert old(Shows(h, s, u)); }
  }

  lemma InvIsDistinct(s: State)
    requires Inv(s)
    ensures AllDistinct(s)
  {
    forall k: Place ensures NoDuplicates(QueueAt(s, k)) {
      if k.Scheduled? { assert NoDuplicates(At(s.lists, k.list)); }
    }
    forall j: Place, k: Place, t: TaskId | t in QueueAt(s, j) && t in QueueAt(s, k) && j.Scheduled? == k.Scheduled?
      ensures j == k {
      if j.Scheduled? {
        assert t in At(s.lists, j.list) && t in At(s.lists, k.list);
      } else {
        assert t in s.delayed[j.index] && t in s.delayed[k.index];
      }
    }
  }

  /** Every state with the invariant, so every reachable state, can be laid out in memory. */
  method LayOut(s: State) returns (h: KernelHeap)
    requires Inv(s)
    ensures fresh(h) && Represents(h, s)
  {
    InvIsDistinct(s);
    h := NewHeap(s);
    ghost var r := FillLists(h, s);
    ShowTasks(h, s);
    ShowScalars(h, s);
  }

  /** os_Init: empty lists and unused TCBs represent the initial state. */
  method Boot() returns (h: KernelHeap)
    ensures fresh(h) && Represents(h, Init())
  {
    InitKeeps();
    h := LayOut(Init());
  }

  /** The consistency check, run on the memory of any reachable state, says yes. */
  method ReachableValidates(s: State) returns (ok: bool)
    requires Reachable(s)
    ensures ok
  {
    ReachableInv(s);
    var h := LayOut(s);
    ok := h.KernelValidate();
    InvIsCertified(h, s);
  }
}
