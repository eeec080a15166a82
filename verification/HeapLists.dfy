/** The lists of the kernel in memory: linked nodes that lay out the sequences of a state. */
module HeapLists {
  import opened KernelState
  import opened TaskLists
  import opened IntrusiveList
  import opened Validate

  /** Every list header there is: those that schedule nodes use, and the two delay lists. */
  datatype Place = Scheduled(list: ListId) | Delayed(index: DelayIndex)

  /** All pools have their sizes and every waiting list has a header. */
  ghost predicate Complete(h: KernelHeap)
    reads h
  {
    h.Sized() && forall w: WaitId :: w in h.waits
  }

  function HeaderOf(h: KernelHeap, k: Place): List
    requires Complete(h)
    reads h
  {
    match k
    case Scheduled(ReadyList(p)) => h.ready[p]
    case Scheduled(WaitList(w)) => h.waits[w]
    case Delayed(d) => h.delayed[d]
  }

  function QueueAt(s: State, k: Place): seq<TaskId> {
    match k
    case Scheduled(l) => At(s.lists, l)
    case Delayed(d) => s.delayed[d]
  }

  function SetQueueAt(s: State, k: Place, q: seq<TaskId>): (r: State)
    ensures forall j: Place :: QueueAt(r, j) == if j == k then q else QueueAt(s, j)
  {
    match k
    case Scheduled(l) => s.(lists := SetAt(s.lists, l, q))
    case Delayed(d) => s.(delayed := s.delayed[d := q])
  }

  function TcbOf(h: KernelHeap, t: TaskId): Tcb
    requires Complete(h)
    reads h
  {
    h.tasks[t]
  }

  /** The node with which task t is linked in a list of this kind. */
  function NodeOf(h: KernelHeap, t: TaskId, k: Place): Node
    requires Complete(h)
    reads h, h.tasks[t]
  {
    if k.Scheduled? then h.tasks[t].scheduleNode else h.tasks[t].delayNode
  }

  ghost function NodesAt(h: KernelHeap, q: seq<TaskId>, k: Place): (ns: seq<Node>)
    requires Complete(h)
    reads h, h.tasks
    ensures |ns| == |q| && forall i :: 0 <= i < |q| ==> ns[i] == NodeOf(h, q[i], k)
  {
    seq(|q|, i requires 0 <= i < |q| && Complete(h) reads h, h.tasks => NodeOf(h, q[i], k))
  }

  /** Each TCB has its number and its two nodes, and all headers are different. */
  ghost predicate Wired(h: KernelHeap)
    reads *
  {
    && Complete(h)
    && (forall t: TaskId :: WiredTcb(h.tasks[t], t) && h.tasks[t] in h.tcbs)
    && (forall t: TaskId, k: Place :: NodeOf(h, t, k) in h.nodes)
    && (forall k: Place :: HeaderOf(h, k) in h.headers)
    && (forall j: Place, k: Place :: HeaderOf(h, j) == HeaderOf(h, k) ==> j == k)
  }

  predicate WiredTcb(c: Tcb, t: TaskId)
    reads c, c.scheduleNode, c.delayNode
  {
    c.id == t && c.scheduleNode.owner == c && c.delayNode.owner == c && c.scheduleNode != c.delayNode
  }

  ghost predicate Stored(h: KernelHeap, s: State, k: Place)
    requires Complete(h)
    reads *
  {
    HeaderOf(h, k).Valid() && HeaderOf(h, k).nodes == NodesAt(h, QueueAt(s, k), k)
  }

  /** Task t is in some list with its node of this kind. */
  ghost predicate InSome(s: State, t: TaskId, scheduled: bool) {
    exists k: Place :: k.Scheduled? == scheduled && t in QueueAt(s, k)
  }

  /** Nobody is in two lists with one node. */
  ghost predicate Separate(s: State) {
    forall j: Place, k: Place, t: TaskId {:trigger t in QueueAt(s, j), t in QueueAt(s, k)} ::
      t in QueueAt(s, j) && t in QueueAt(s, k) && j.Scheduled? == k.Scheduled? ==> j == k
  }

  /** The linked lists hold the sequences of s, and the `linked` flags tell who is in a list. */
  ghost predicate LaidOut(h: KernelHeap, s: State)
    reads *
  {
    && Wired(h) && Separate(s)
    && (forall k: Place :: Stored(h, s, k))
    && (forall t: TaskId, k: Place :: NodeOf(h, t, k).linked <==> InSome(s, t, k.Scheduled?))
  }

  /** The same TCBs, nodes and headers as before. */
  twostate predicate SameParts(h: KernelHeap)
    reads h
  {
    h.tasks == old(h.tasks) && h.tcbs == old(h.tcbs) && h.nodes == old(h.nodes) && h.headers == old(h.headers)
  }

  lemma NodesDiffer(h: KernelHeap, t: TaskId, j: Place, u: TaskId, k: Place)
    requires Wired(h) && NodeOf(h, t, j) == NodeOf(h, u, k)
    ensures t == u && j.Scheduled? == k.Scheduled?
  {
    assert WiredTcb(h.tasks[t], t) && WiredTcb(h.tasks[u], u);
  }

  lemma SharedPlace(h: KernelHeap, s: State, j: Place, x: nat, k: Place, y: nat)
    requires LaidOut(h, s) && x < |QueueAt(s, j)| && y < |QueueAt(s, k)|
    requires NodeOf(h, QueueAt(s, j)[x], j) == NodeOf(h, QueueAt(s, k)[y], k)
    ensures j == k
  {
    var t, u := QueueAt(s, j)[x], QueueAt(s, k)[y];
    NodesDiffer(h, t, j, u, k);
    assert t in QueueAt(s, j) && t in QueueAt(s, k);
  }

  /** Different lists share no node. */
  lemma ListsApart(h: KernelHeap, s: State, j: Place, k: Place)
    requires LaidOut(h, s) && j != k
    ensures HeaderOf(h, j).Apart(HeaderOf(h, k))
  {
    assert Stored(h, s, j) && Stored(h, s, k);
    var a, b := HeaderOf(h, j), HeaderOf(h, k);
    forall n | n in b.nodes ensures n !in a.nodes {
      if n in a.nodes {
        var x :| 0 <= x < |a.nodes| && a.nodes[x] == n;
        var y :| 0 <= y < |b.nodes| && b.nodes[y] == n;
        SharedPlace(h, s, j, x, k, y);
      }
    }
  }

  lemma NodesAreKnown(h: KernelHeap, s: State, k: Place)
    requires LaidOut(h, s)
    ensures forall n :: n in HeaderOf(h, k).nodes ==> n in h.nodes
    ensures HeaderOf(h, k) in h.headers
  {
    assert Stored(h, s, k);
  }

  /** Once the header of k holds q and nothing else moved, the whole layout is that of the new state. */
  lemma Relaid(h: KernelHeap, s: State, k: Place, q: seq<TaskId>, t: TaskId, linked: bool)
    requires Wired(h) && Separate(s) && Separate(SetQueueAt(s, k, q))
    requires forall j: Place :: j != k ==> Stored(h, s, j)
    requires HeaderOf(h, k).Valid() && HeaderOf(h, k).nodes == NodesAt(h, q, k)
    requires forall u: TaskId :: u != t ==> (u in q <==> u in QueueAt(s, k))
    requires forall u: TaskId, j: Place :: !(u == t && j.Scheduled? == k.Scheduled?) ==>
               (NodeOf(h, u, j).linked <==> InSome(s, u, j.Scheduled?))
    requires NodeOf(h, t, k).linked == linked && (t in q <==> linked)
    requires forall j: Place :: j != k && j.Scheduled? == k.Scheduled? ==> t !in QueueAt(s, j)
    ensures LaidOut(h, SetQueueAt(s, k, q))
  {
    var r := SetQueueAt(s, k, q);
    forall j: Place ensures Stored(h, r, j) { assert j != k ==> Stored(h, s, j); }
    forall u: TaskId, j: Place ensures NodeOf(h, u, j).linked <==> InSome(r, u, j.Scheduled?) {
      if u == t && j.Scheduled? == k.Scheduled? {
        if linked { assert t in QueueAt(r, k); }
        assert NodeOf(h, u, j) == NodeOf(h, t, k);
      } else {
        SameListed(s, r, k, u, j.Scheduled?);
      }
    }
  }

  lemma SameListed(s: State, r: State, k: Place, u: TaskId, scheduled: bool)
    requires forall j: Place :: j != k ==> QueueAt(r, j) == QueueAt(s, j)
    requires k.Scheduled? != scheduled || (u in QueueAt(r, k) <==> u in QueueAt(s, k))
    ensures InSome(r, u, scheduled) <==> InSome(s, u, scheduled)
  {
    if InSome(s, u, scheduled) {
      var j: Place :| j.Scheduled? == scheduled && u in QueueAt(s, j);
      assert u in QueueAt(r, j);
    }
    if InSome(r, u, scheduled) {
      var j: Place :| j.Scheduled? == scheduled && u in QueueAt(r, j);
      assert u in QueueAt(s, j);
    }
  }

  lemma SeparateAfter(s: State, k: Place, q: seq<TaskId>, t: TaskId)
    requires Separate(s)
    requires forall u: TaskId :: u in q ==> u in QueueAt(s, k) || u == t
    requires t in q ==> forall j: Place :: j != k && j.Scheduled? == k.Scheduled? ==> t !in QueueAt(s, j)
    ensures Separate(SetQueueAt(s, k, q))
  {
  }

  // ----- One list operation

  /** Task t enters or leaves the list of k, which then holds q, that is, the nodes `after`;
      before, the heap lays out s. */
  datatype Move = Move(h: KernelHeap, s: State, k: Place, t: TaskId, q: seq<TaskId>, after: seq<Node>)

  /** The new sequence differs from the old one in t only, and t is in no other such list. */
  ghost predicate Legal(m: Move) {
    && Separate(m.s) && Separate(SetQueueAt(m.s, m.k, m.q))
    && (forall u: TaskId :: u != m.t ==> (u in m.q <==> u in QueueAt(m.s, m.k)))
    && (forall j: Place :: j != m.k && j.Scheduled? == m.k.Scheduled? ==> m.t !in QueueAt(m.s, j))
  }

  ghost predicate Movable(m: Move)
    reads *
  {
    && LaidOut(m.h, m.s) && Legal(m) && m.after == NodesAt(m.h, m.q, m.k)
    && (forall j: Place :: j != m.k ==> HeaderOf(m.h, m.k).Apart(HeaderOf(m.h, j)) && HeaderOf(m.h, j).Valid())
  }

  lemma EntersLegally(m: Move)
    requires LaidOut(m.h, m.s) && !NodeOf(m.h, m.t, m.k).linked
    requires forall u: TaskId :: u != m.t ==> (u in m.q <==> u in QueueAt(m.s, m.k))
    requires m.after == NodesAt(m.h, m.q, m.k)
    ensures Movable(m)
  {
    assert !InSome(m.s, m.t, m.k.Scheduled?);
    SeparateAfter(m.s, m.k, m.q, m.t);
    AllApart(m.h, m.s, m.k);
  }

  lemma LeavesLegally(m: Move)
    requires LaidOut(m.h, m.s) && m.t in QueueAt(m.s, m.k)
    requires forall u: TaskId :: u != m.t ==> (u in m.q <==> u in QueueAt(m.s, m.k))
    requires m.after == NodesAt(m.h, m.q, m.k)
    ensures Movable(m)
  {
    SeparateAfter(m.s, m.k, m.q, m.t);
    AllApart(m.h, m.s, m.k);
  }

  lemma AllApart(h: KernelHeap, s: State, k: Place)
    requires LaidOut(h, s)
    ensures forall j: Place :: j != k ==> HeaderOf(h, k).Apart(HeaderOf(h, j)) && HeaderOf(h, j).Valid()
  {
    forall j: Place | j != k ensures HeaderOf(h, k).Apart(HeaderOf(h, j)) && HeaderOf(h, j).Valid() {
      ListsApart(h, s, k, j);
      assert Stored(h, s, j);
    }
  }

  /** What the list of k looks like before an operation on it. */
  lemma Header(h: KernelHeap, s: State, k: Place)
    requires LaidOut(h, s)
    ensures HeaderOf(h, k).Valid() && HeaderOf(h, k).nodes == NodesAt(h, QueueAt(s, k), k)
    ensures HeaderOf(h, k) in h.headers && forall n :: n in HeaderOf(h, k).nodes ==> n in h.nodes
    ensures forall t: TaskId :: NodeOf(h, t, k) in h.nodes
  {
    assert Stored(h, s, k);
    NodesAreKnown(h, s, k);
  }

  twostate lemma OthersStored(m: Move)
    requires old(Movable(m)) && unchanged(m.h) && unchanged(m.h.tasks)
    requires forall l: List :: old(allocated(l)) ==> HeaderOf(m.h, m.k).Stands(l)
    ensures forall j: Place :: j != m.k ==> Stored(m.h, m.s, j)
  {
    forall j: Place | j != m.k ensures Stored(m.h, m.s, j) {
      assert old(Stored(m.h, m.s, j));
      assert HeaderOf(m.h, m.k).Stands(HeaderOf(m.h, j));
    }
  }

  twostate lemma FlagsKept(m: Move)
    requires old(Movable(m)) && unchanged(m.h) && unchanged(m.h.tasks)
    requires forall n: Node :: old(allocated(n)) ==>
               n.owner == old(n.owner) && (n != old(NodeOf(m.h, m.t, m.k)) ==> n.linked == old(n.linked))
    ensures Wired(m.h)
    ensures forall u: TaskId, j: Place :: !(u == m.t && j.Scheduled? == m.k.Scheduled?) ==>
              (NodeOf(m.h, u, j).linked <==> InSome(m.s, u, j.Scheduled?))
  {
    forall u: TaskId ensures WiredTcb(m.h.tasks[u], u) { assert old(WiredTcb(m.h.tasks[u], u)); }
    forall u: TaskId, j: Place | !(u == m.t && j.Scheduled? == m.k.Scheduled?)
      ensures NodeOf(m.h, u, j).linked <==> InSome(m.s, u, j.Scheduled?)
    {
      assert old(NodeOf(m.h, u, j).linked <==> InSome(m.s, u, j.Scheduled?));
      if NodeOf(m.h, u, j) == NodeOf(m.h, m.t, m.k) { NodesDiffer(m.h, u, j, m.t, m.k); }
    }
  }

  /** A list operation that did its work on the list of k lays out the new state. */
  twostate lemma Moved(m: Move)
    requires old(Movable(m)) && unchanged(m.h) && unchanged(m.h.tasks)
    requires forall l: List :: old(allocated(l)) ==> HeaderOf(m.h, m.k).Stands(l)
    requires forall n: Node :: old(allocated(n)) ==>
               n.owner == old(n.owner) && (n != old(NodeOf(m.h, m.t, m.k)) ==> n.linked == old(n.linked))
    requires HeaderOf(m.h, m.k).Valid() && HeaderOf(m.h, m.k).nodes == m.after
    requires NodeOf(m.h, m.t, m.k).linked <==> m.t in m.q
    ensures LaidOut(m.h, SetQueueAt(m.s, m.k, m.q))
  {
    OthersStored(m);
    FlagsKept(m);
    Relaid(m.h, m.s, m.k, m.q, m.t, m.t in m.q);
  }

  /** The header of k and its nodes are among those the operations may change. */
  ghost predicate Known(m: Move, before: seq<Node>)
    requires Complete(m.h)
    reads *
  {
    var l := HeaderOf(m.h, m.k);
    && l.Valid() && l.nodes == before && l in m.h.headers
    && (forall n :: n in before ==> n in m.h.nodes) && NodeOf(m.h, m.t, m.k) in m.h.nodes
  }

  /** os_ListPushBack on the list of k. */
  method Append(h: KernelHeap, ghost s: State, l: List, node: Node, ghost k: Place, ghost t: TaskId)
    requires LaidOut(h, s) && l == HeaderOf(h, k) && node == NodeOf(h, t, k) && !node.linked
    modifies h.headers, h.nodes
    ensures LaidOut(h, SetQueueAt(s, k, QueueAt(s, k) + [t]))
    ensures SameParts(h)
  {
    ghost var m := AppendMove(h, s, k, t);
    l.PushBack(node);
    Moved(m);
  }

  lemma AppendMove(h: KernelHeap, s: State, k: Place, t: TaskId) returns (m: Move)
    requires LaidOut(h, s) && !NodeOf(h, t, k).linked
    ensures m.h == h && m.s == s && m.k == k && m.t == t && m.q == QueueAt(s, k) + [t]
    ensures Movable(m) && Known(m, HeaderOf(h, k).nodes) && m.after == HeaderOf(h, k).nodes + [NodeOf(h, t, k)]
  {
    var q := QueueAt(s, k) + [t];
    m := Move(h, s, k, t, q, NodesAt(h, q, k));
    EntersLegally(m);
    Header(h, s, k);
  }

  /** os_ListInsertBefore on the list of k: t goes before the i-th task. */
  method Insert(h: KernelHeap, ghost s: State, l: List, position: Node, node: Node, ghost k: Place, ghost t: TaskId,
      ghost i: nat)
    requires LaidOut(h, s) && l == HeaderOf(h, k) && node == NodeOf(h, t, k) && !node.linked
    requires i < |QueueAt(s, k)| && position == NodeOf(h, QueueAt(s, k)[i], k)
    modifies h.headers, h.nodes
    ensures LaidOut(h, SetQueueAt(s, k, InsertAt(QueueAt(s, k), i, t)))
    ensures SameParts(h)
  {
    ghost var m, before := InsertMove(h, s, k, t, i);
    LinkIn(l, position, node, i, m.after);
    Moved(m);
  }

  method LinkIn(l: List, position: Node, node: Node, ghost i: nat, ghost after: seq<Node>)
    requires l.Valid() && i < |l.nodes| && l.nodes[i] == position && !node.linked
    requires after == l.nodes[..i] + [node] + l.nodes[i..]
    modifies l, node, l.nodes
    ensures l.Valid() && l.nodes == after && node.linked
    ensures forall o: List :: old(allocated(o)) ==> l.Stands(o)
    ensures forall n: Node :: old(allocated(n)) ==> n.owner == old(n.owner) && (n != node ==> n.linked == old(n.linked))
  {
    l.InsertBefore(position, node, i);
  }

  lemma InsertMove(h: KernelHeap, s: State, k: Place, t: TaskId, i: nat) returns (m: Move, before: seq<Node>)
    requires LaidOut(h, s) && !NodeOf(h, t, k).linked && i < |QueueAt(s, k)|
    ensures m.h == h && m.s == s && m.k == k && m.t == t && m.q == InsertAt(QueueAt(s, k), i, t)
    ensures Movable(m) && Known(m, before) && i < |before| && before[i] == NodeOf(h, QueueAt(s, k)[i], k) && t in m.q
    ensures m.after == before[..i] + [NodeOf(h, t, k)] + before[i..]
  {
    var q := InsertAt(QueueAt(s, k), i, t);
    m := Move(h, s, k, t, q, NodesAt(h, q, k));
    InsertedMembers(QueueAt(s, k), i, t);
    EntersLegally(m);
    Header(h, s, k);
    NodesInserted(h, QueueAt(s, k), i, t, k);
    before := NodesAt(h, QueueAt(s, k), k);
  }

  lemma InsertedMembers(q: seq<TaskId>, i: nat, t: TaskId)
    requires i <= |q|
    ensures t in InsertAt(q, i, t) && forall u: TaskId :: u != t ==> (u in InsertAt(q, i, t) <==> u in q)
  {
    var r := InsertAt(q, i, t);
    assert r[i] == t;
    assert q == q[..i] + q[i..];
  }

  lemma PoppedMembers(q: seq<TaskId>)
    requires q != [] && NoDuplicates(q)
    ensures q[0] !in q[1..] && forall u: TaskId :: u != q[0] ==> (u in q[1..] <==> u in q)
  {
    assert q == [q[0]] + q[1..];
  }

  lemma NodesPopped(h: KernelHeap, q: seq<TaskId>, k: Place)
    requires Complete(h) && q != []
    ensures NodesAt(h, q[1..], k) == NodesAt(h, q, k)[1..]
  {
  }

  /** Inserting a node is inserting its task. */
  lemma NodesInserted(h: KernelHeap, q: seq<TaskId>, i: nat, t: TaskId, k: Place)
    requires Complete(h) && i <= |q|
    ensures var ns := NodesAt(h, q, k); NodesAt(h, InsertAt(q, i, t), k) == ns[..i] + [NodeOf(h, t, k)] + ns[i..]
  {
  }

  lemma NodesRemoved(h: KernelHeap, q: seq<TaskId>, t: TaskId, k: Place)
    requires Complete(h) && t in q
    ensures var (ns, i) := (NodesAt(h, q, k), IndexOf(q, t)); NodesAt(h, Without(q, t), k) == ns[..i] + ns[i + 1..]
  {
  }

  /** os_ListRemove on the list of k. */
  method Unlist(h: KernelHeap, ghost s: State, l: List, node: Node, ghost k: Place, ghost t: TaskId)
    requires LaidOut(h, s) && l == HeaderOf(h, k) && node == NodeOf(h, t, k) && t in QueueAt(s, k)
             && NoDuplicates(QueueAt(s, k))
    modifies h.headers, h.nodes
    ensures LaidOut(h, SetQueueAt(s, k, Without(QueueAt(s, k), t)))
    ensures SameParts(h)
  {
    ghost var m, before, i := RemoveMove(h, s, k, t);
    l.Remove(node, i);
    assert l.nodes == before[..i] + before[i + 1..];
    Moved(m);
  }

  lemma RemoveMove(h: KernelHeap, s: State, k: Place, t: TaskId) returns (m: Move, before: seq<Node>, i: nat)
    requires LaidOut(h, s) && t in QueueAt(s, k) && NoDuplicates(QueueAt(s, k))
    ensures m.h == h && m.s == s && m.k == k && m.t == t && m.q == Without(QueueAt(s, k), t)
    ensures Movable(m) && Known(m, before) && i < |before| && before[i] == NodeOf(h, t, k) && t !in m.q
    ensures m.after == before[..i] + before[i + 1..]
  {
    var q := Without(QueueAt(s, k), t);
    m := Move(h, s, k, t, q, NodesAt(h, q, k));
    WithoutMembers(QueueAt(s, k), t);
    LeavesLegally(m);
    Header(h, s, k);
    NodesRemoved(h, QueueAt(s, k), t, k);
    before, i := NodesAt(h, QueueAt(s, k), k), IndexOf(QueueAt(s, k), t);
  }

  /** os_ListPopFront on the list of k, which is not empty. */
  method PopTask(h: KernelHeap, ghost s: State, l: List, ghost k: Place) returns (c: Tcb)
    requires LaidOut(h, s) && l == HeaderOf(h, k) && QueueAt(s, k) != [] && NoDuplicates(QueueAt(s, k))
    modifies h.headers, h.nodes
    ensures c == h.tasks[QueueAt(s, k)[0]]
    ensures LaidOut(h, SetQueueAt(s, k, QueueAt(s, k)[1..]))
    ensures SameParts(h)
  {
    ghost var m, before := PopMove(h, s, k);
    var node := l.PopFront();
    assert l.nodes == before[1..];
    Moved(m);
    c := node.owner;
  }

  lemma PopMove(h: KernelHeap, s: State, k: Place) returns (m: Move, before: seq<Node>)
    requires LaidOut(h, s) && QueueAt(s, k) != [] && NoDuplicates(QueueAt(s, k))
    ensures m.h == h && m.s == s && m.k == k && m.t == QueueAt(s, k)[0] && m.q == QueueAt(s, k)[1..]
    ensures Movable(m) && Known(m, before) && before != [] && before[0] == NodeOf(h, m.t, k) && m.t !in m.q
    ensures m.after == before[1..] && before[0].owner == h.tasks[m.t]
  {
    var t, q := QueueAt(s, k)[0], QueueAt(s, k)[1..];
    m := Move(h, s, k, t, q, NodesAt(h, q, k));
    PoppedMembers(QueueAt(s, k));
    LeavesLegally(m);
    Header(h, s, k);
    assert WiredTcb(h.tasks[t], t);
    before := NodesAt(h, QueueAt(s, k), k);
    NodesPopped(h, QueueAt(s, k), k);
  }

  // ----- Changes that move nothing

  datatype Laid = Laid(h: KernelHeap, s: State)

  /** Writing other fields of the kernel or of a TCB leaves the layout alone. */
  twostate lemma LayoutKept(m: Laid)
    requires old(LaidOut(m.h, m.s)) && Complete(m.h)
    requires SameParts(m.h) && m.h.tasks == old(m.h.tasks) && m.h.ready == old(m.h.ready)
             && m.h.delayed == old(m.h.delayed) && m.h.waits == old(m.h.waits)
    requires forall u: TaskId :: m.h.tasks[u].id == old(m.h.tasks[u].id)
    requires forall u: TaskId, j: Place :: NodeOf(m.h, u, j) == old(NodeOf(m.h, u, j))
    requires unchanged(old(m.h.headers)) && unchanged(old(m.h.nodes))
    ensures LaidOut(m.h, m.s)
  {
    assert forall j: Place :: HeaderOf(m.h, j) == old(HeaderOf(m.h, j));
    forall u: TaskId ensures WiredTcb(m.h.tasks[u], u) {
      assert old(WiredTcb(m.h.tasks[u], u));
      assert NodeOf(m.h, u, Scheduled(ReadyList(0))) in old(m.h.nodes) && NodeOf(m.h, u, Delayed(0)) in old(m.h.nodes);
    }
    forall k: Place ensures Stored(m.h, m.s, k) {
      assert old(Stored(m.h, m.s, k)) && HeaderOf(m.h, k) in old(m.h.headers);
    }
    forall u: TaskId, j: Place ensures NodeOf(m.h, u, j).linked <==> InSome(m.s, u, j.Scheduled?) {
      assert old(NodeOf(m.h, u, j).linked <==> InSome(m.s, u, j.Scheduled?)) && NodeOf(m.h, u, j) in old(m.h.nodes);
    }
  }

  lemma SameLayout(h: KernelHeap, a: State, b: State)
    requires LaidOut(h, a) && forall j: Place :: QueueAt(b, j) == QueueAt(a, j)
    ensures LaidOut(h, b)
  {
    forall k: Place ensures Stored(h, b, k) { assert Stored(h, a, k); }
    forall u: TaskId, j: Place ensures NodeOf(h, u, j).linked <==> InSome(b, u, j.Scheduled?) {
      SameListed(a, b, j, u, j.Scheduled?);
    }
  }
}
