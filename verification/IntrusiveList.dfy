/** The intrusive doubly linked list (os_list.c): nodes live inside TCBs, lists only relink them. */
module IntrusiveList {
  import opened KernelState

  class Node {
    var previous: Node?
    var next: Node?
    var linked: bool
    var owner: Tcb?

    constructor (owner: Tcb?)
      ensures previous == null && next == null && !linked && this.owner == owner
    {
      previous, next, linked, this.owner := null, null, false, owner;
    }
  }

  /** The fields of a task control block that tie it to the lists. */
  class Tcb {
    var id: nat
    var state: TaskState
    var base: nat
    var eff: nat
    var wakeTick: Tick
    var waiting: bool
    var waitList: List?
    var deadline: Tick
    var delayList: List?
    var scheduleNode: Node
    var delayNode: Node

    /** An unused TCB with two unlinked nodes. */
    constructor (id: nat)
      ensures this.id == id && state == Unused && base == 0 && eff == 0 && wakeTick == 0 && deadline == 0
      ensures !waiting && waitList == null && delayList == null
      ensures scheduleNode.owner == this && delayNode.owner == this
      ensures fresh(scheduleNode) && fresh(delayNode) && scheduleNode != delayNode
      ensures !scheduleNode.linked && !delayNode.linked
    {
      this.id, state, base, eff, wakeTick := id, Unused, 0, 0, 0;
      waiting, waitList, deadline, delayList := false, null, 0, null;
      scheduleNode := new Node(null);
      delayNode := new Node(null);
      new;
      scheduleNode.owner := this;
      delayNode.owner := this;
    }
  }

  function First(ns: seq<Node>): Node? {
    if ns == [] then null else ns[0]
  }

  function Last(ns: seq<Node>): Node? {
    if ns == [] then null else ns[|ns| - 1]
  }

  /** Both neighbours of the i-th node are the ones in the sequence. */
  ghost predicate InPlace(ns: seq<Node>, i: nat)
    requires i < |ns|
    reads ns
  {
    && ns[i].linked
    && ns[i].previous == (if i == 0 then null else ns[i - 1])
    && ns[i].next == (if i == |ns| - 1 then null else ns[i + 1])
  }

  ghost predicate Linked(ns: seq<Node>)
    reads ns
  {
    forall i :: 0 <= i < |ns| ==> InPlace(ns, i)
  }

  /** Doubly consistent nodes can not be shared or run in circles. */
  lemma {:induction false} NoCycle(ns: seq<Node>, i: nat, j: nat)
    requires Linked(ns) && i < j < |ns|
    ensures ns[i] != ns[j]
    decreases i
  {
    assert InPlace(ns, i) && InPlace(ns, j);
    if i > 0 { NoCycle(ns, i - 1, j - 1); }
  }

  lemma AllDistinct(ns: seq<Node>)
    requires Linked(ns)
    ensures forall i, j :: 0 <= i < j < |ns| ==> ns[i] != ns[j]
  {
    forall i, j | 0 <= i < j < |ns| ensures ns[i] != ns[j] { NoCycle(ns, i, j); }
  }

  lemma OnlyAt(ns: seq<Node>, i: int)
    requires Linked(ns)
    ensures 0 <= i < |ns| ==> forall k :: 0 <= k < |ns| && k != i ==> ns[k] != ns[i]
  {
    AllDistinct(ns);
  }

  /** Two consistent lists that share a node are the same list: lists never cross. */
  lemma {:induction false} SharedNode(a: seq<Node>, i: nat, b: seq<Node>, j: nat)
    requires Linked(a) && Linked(b) && i < |a| && j < |b| && a[i] == b[j]
    ensures i == j && a == b
  {
    SameIndex(a, i, b, j);
    SameRest(a, b, 0);
  }

  lemma {:induction false} SameIndex(a: seq<Node>, i: nat, b: seq<Node>, j: nat)
    requires Linked(a) && Linked(b) && i < |a| && j < |b| && a[i] == b[j]
    ensures i == j && a[0] == b[0]
    decreases i
  {
    assert InPlace(a, i) && InPlace(b, j);
    if i > 0 { SameIndex(a, i - 1, b, j - 1); }
  }

  lemma {:induction false} SameRest(a: seq<Node>, b: seq<Node>, i: nat)
    requires Linked(a) && Linked(b) && i < |a| && i < |b| && a[i] == b[i] && a[..i] == b[..i]
    ensures a == b
    decreases |a| - i
  {
    assert InPlace(a, i) && InPlace(b, i);
    if i < |a| - 1 && i < |b| - 1 {
      assert a[i + 1] == b[i + 1] && a[..i + 1] == b[..i + 1];
      SameRest(a, b, i + 1);
    }
  }

  /** The node reached after k steps. */
  ghost function Step(n: Node?, k: nat): Node?
    reads *
    decreases k
  {
    if n == null || k == 0 then n else Step(n.next, k - 1)
  }

  /** The node is among the first MAX_TASKS + 1 nodes that next pointers lead to. */
  ghost predicate Reached(head: Node?, node: Node)
    reads *
  {
    exists k: nat :: k <= MAX_TASKS && Step(head, k) == node
  }

  lemma {:induction false} StepIs(ns: seq<Node>, i: nat, k: nat)
    requires Linked(ns) && i < |ns|
    ensures Step(ns[i], k) == if i + k < |ns| then ns[i + k] else null
    decreases k
  {
    assert InPlace(ns, i);
    if k > 0 && i + 1 < |ns| { StepIs(ns, i + 1, k - 1); }
  }

  lemma Ends(ns: seq<Node>)
    requires Linked(ns)
    ensures forall n :: n in ns ==> n.linked
    ensures ns != [] ==> ns[0].previous == null && ns[|ns| - 1].next == null
    ensures |ns| > 1 ==> ns[0].next == ns[1]
  {
    forall n | n in ns ensures n.linked {
      var i :| 0 <= i < |ns| && ns[i] == n;
      assert InPlace(ns, i);
    }
    if ns != [] { assert InPlace(ns, 0) && InPlace(ns, |ns| - 1); }
  }

  /** The neighbours of all nodes at some moment. */
  datatype Links = Links(previous: seq<Node?>, next: seq<Node?>)

  ghost function LinksOf(ns: seq<Node>): (links: Links)
    reads ns
    ensures |links.previous| == |ns| && forall k :: 0 <= k < |ns| ==> links.previous[k] == ns[k].previous
    ensures |links.next| == |ns| && forall k :: 0 <= k < |ns| ==> links.next[k] == ns[k].next
  {
    Links(seq(|ns|, k requires 0 <= k < |ns| reads ns => ns[k].previous),
      seq(|ns|, k requires 0 <= k < |ns| reads ns => ns[k].next))
  }

  ghost predicate WasInPlace(ns: seq<Node>, links: Links, k: nat)
    requires k < |ns| == |links.previous| == |links.next|
  {
    && links.previous[k] == (if k == 0 then null else ns[k - 1])
    && links.next[k] == (if k == |ns| - 1 then null else ns[k + 1])
  }

  ghost predicate WasLinked(ns: seq<Node>, links: Links) {
    |ns| == |links.previous| == |links.next| && forall k :: 0 <= k < |ns| ==> WasInPlace(ns, links, k)
  }

  lemma Capture(ns: seq<Node>)
    requires Linked(ns)
    ensures WasLinked(ns, LinksOf(ns))
  {
    forall k | 0 <= k < |ns| ensures WasInPlace(ns, LinksOf(ns), k) { assert InPlace(ns, k); }
  }

  /** Relinking the two neighbours of the insertion point is enough. */
  lemma InsertLinks(ns: seq<Node>, links: Links, i: nat, node: Node, r: seq<Node>)
    requires WasLinked(ns, links) && i < |ns| && r == ns[..i] + [node] + ns[i..]
    requires node.linked && node.previous == links.previous[i] && node.next == ns[i]
    requires forall k :: 0 <= k < |ns| ==> ns[k].linked
    requires forall k :: 0 <= k < |ns| && k != i ==> ns[k].previous == links.previous[k]
    requires forall k :: 0 <= k < |ns| && k != i - 1 ==> ns[k].next == links.next[k]
    requires ns[i].previous == node && (i > 0 ==> ns[i - 1].next == node)
    ensures Linked(r)
  {
    forall k | 0 <= k < |r| ensures InPlace(r, k) {
      if k <= i { assert WasInPlace(ns, links, k); }
      if k > i { assert WasInPlace(ns, links, k - 1); }
    }
  }

  lemma RemoveLinks(ns: seq<Node>, links: Links, i: nat, r: seq<Node>)
    requires WasLinked(ns, links) && i < |ns| && r == ns[..i] + ns[i + 1..]
    requires forall k :: 0 <= k < |ns| && k != i ==> ns[k].linked
    requires forall k :: 0 <= k < |ns| && k != i && k != i + 1 ==> ns[k].previous == links.previous[k]
    requires forall k :: 0 <= k < |ns| && k != i && k != i - 1 ==> ns[k].next == links.next[k]
    requires i + 1 < |ns| ==> ns[i + 1].previous == links.previous[i]
    requires i > 0 ==> ns[i - 1].next == links.next[i]
    ensures Linked(r)
  {
    assert WasInPlace(ns, links, i);
    forall k | 0 <= k < |r| ensures InPlace(r, k) {
      if k < i { assert WasInPlace(ns, links, k); } else { assert WasInPlace(ns, links, k + 1); }
    }
  }

  lemma AppendLinks(ns: seq<Node>, links: Links, node: Node, r: seq<Node>)
    requires WasLinked(ns, links) && r == ns + [node]
    requires node.linked && node.previous == Last(ns) && node.next == null
    requires forall k :: 0 <= k < |ns| ==> ns[k].linked && ns[k].previous == links.previous[k]
    requires forall k :: 0 <= k < |ns| - 1 ==> ns[k].next == links.next[k]
    requires ns != [] ==> ns[|ns| - 1].next == node
    ensures Linked(r)
  {
    forall k | 0 <= k < |r| ensures InPlace(r, k) {
      if k < |ns| { assert WasInPlace(ns, links, k); }
    }
  }

  lemma InsertedNodes(ns: seq<Node>, i: nat, node: Node, r: seq<Node>)
    requires i <= |ns| && r == ns[..i] + [node] + ns[i..]
    ensures forall n :: n in r ==> n in ns || n == node
    ensures First(r) == (if i == 0 then node else First(ns)) && (i < |ns| ==> Last(r) == Last(ns)) && |r| == |ns| + 1
  {
  }

  /** The node enters or leaves the list `me`. */
  datatype Change = Change(me: List, node: Node)

  /** Whoever touches only its own nodes and the one that moves leaves all other lists alone. */
  twostate lemma OthersStand(c: Change)
    requires old(c.me.Valid()) && old(!c.node.linked || c.node in c.me.nodes)
    requires forall l: List :: old(allocated(l)) && l != c.me ==>
               l.head == old(l.head) && l.tail == old(l.tail) && l.size == old(l.size) && l.nodes == old(l.nodes)
    requires forall n: Node :: old(allocated(n)) && n != c.node && n !in old(c.me.nodes) ==> unchanged(n)
    requires forall n :: n in c.me.nodes ==> n in old(c.me.nodes) || n == c.node
    ensures forall l: List :: old(allocated(l)) ==> c.me.Stands(l)
  {
    forall l: List | old(allocated(l) && l.Valid() && c.me.Apart(l)) ensures c.me.Stands(l) {
      forall k | 0 <= k < |l.nodes| ensures InPlace(l.nodes, k) {
        assert old(InPlace(l.nodes, k)) && l.nodes[k] in l.nodes;
      }
      forall n | n in l.nodes ensures n !in c.me.nodes {
        var k :| 0 <= k < |l.nodes| && l.nodes[k] == n;
        assert old(InPlace(l.nodes, k));
      }
    }
  }

  /** A list header; `nodes` is the duplicate-free sequence that the list refines. */
  class List {
    var head: Node?
    var tail: Node?
    var size: nat
    ghost var nodes: seq<Node>

    ghost predicate Valid()
      reads this, nodes
    {
      Linked(nodes) && head == First(nodes) && tail == Last(nodes) && size == |nodes|
    }

    /** No node of the other list is a node of this one. */
    ghost predicate Apart(other: List)
      reads this, other
    {
      other != this && forall n :: n in other.nodes ==> n !in nodes
    }

    constructor ()
      ensures Valid() && nodes == []
    {
      head, tail, size, nodes := null, null, 0, [];
    }

    /** A list that shares no node with this one is as before and still shares none. */
    twostate predicate Stands(l: List)
      reads this, l, l.nodes
    {
      old(l.Valid() && Apart(l)) ==> l.Valid() && l.nodes == old(l.nodes) && Apart(l)
    }

    method PushBack(node: Node)
      requires Valid() && !node.linked
      modifies this, node, nodes
      ensures Valid() && nodes == old(nodes) + [node] && node.linked
      ensures forall l: List :: old(allocated(l)) ==> Stands(l)
      ensures forall n: Node :: old(allocated(n))
                ==> n.owner == old(n.owner) && (n != node ==> n.linked == old(n.linked))
    {
      ghost var ns, links := nodes, LinksOf(nodes);
      Capture(ns);
      Ends(ns);
      OnlyAt(ns, |ns| - 1);
      assert tail != null ==> tail in ns;
      LinkBack(node);
      nodes := nodes + [node];
      AppendLinks(ns, links, node, nodes);
      OthersStand(Change(this, node));
    }

    method LinkBack(node: Node)
      requires tail != node && (tail == null ==> head == null)
      modifies this`head, this`tail, this`size, node, tail
      ensures forall n: Node :: old(allocated(n))
                ==> n.owner == old(n.owner) && (n != node ==> n.linked == old(n.linked))
      ensures node.previous == old(tail) && node.next == null && node.linked
      ensures old(tail) != null ==> old(tail).next == node && old(tail).previous == old(tail.previous)
      ensures head == (if old(tail) == null then node else old(head)) && tail == node && size == old(size) + 1
    {
      node.previous := tail;
      node.next := null;
      if tail != null {
        tail.next := node;
      } else {
        head := node;
      }
      tail := node;
      node.linked := true;
      size := size + 1;
    }

    method InsertBefore(position: Node, node: Node, ghost i: nat)
      requires Valid() && i < |nodes| && nodes[i] == position && !node.linked
      modifies this, node, nodes
      ensures Valid() && nodes == old(nodes[..i] + [node] + nodes[i..]) && node.linked
      ensures forall l: List :: old(allocated(l)) ==> Stands(l)
      ensures forall n: Node :: old(allocated(n))
                ==> n.owner == old(n.owner) && (n != node ==> n.linked == old(n.linked))
    {
      ghost var ns, links := nodes, LinksOf(nodes);
      Capture(ns);
      Ends(ns);
      OnlyAt(ns, i);
      OnlyAt(ns, i - 1);
      assert InPlace(ns, i);
      assert i > 0 ==> InPlace(ns, i - 1) && ns[i - 1] in ns;
      assert position.previous == null || position.previous in ns;
      LinkBefore(position, node);
      nodes := nodes[..i] + [node] + nodes[i..];
      InsertLinks(ns, links, i, node, nodes);
      InsertedNodes(ns, i, node, nodes);
      OthersStand(Change(this, node));
    }

    method LinkBefore(position: Node, node: Node)
      requires position != node && position.previous != node && position.previous != position
      modifies this`head, this`size, node, position, position.previous
      ensures forall n: Node :: old(allocated(n))
                ==> n.owner == old(n.owner) && (n != node ==> n.linked == old(n.linked))
      ensures node.previous == old(position.previous) && node.next == position && node.linked
      ensures position.previous == node && position.next == old(position.next)
      ensures var p := old(position.previous);
                p != null ==> p.next == node && p.previous == old(position.previous.previous)
      ensures head == (if old(position.previous) == null then node else old(head)) && size == old(size) + 1
    {
      node.previous := position.previous;
      node.next := position;
      if position.previous != null {
        position.previous.next := node;
      } else {
        head := node;
      }
      position.previous := node;
      node.linked := true;
      size := size + 1;
    }

    method PopFront() returns (node: Node?)
      requires Valid()
      modifies this, nodes
      ensures Valid() && node == First(old(nodes))
      ensures nodes == if old(nodes) == [] then [] else old(nodes[1..])
      ensures node != null ==> !node.linked && node.previous == null && node.next == null
      ensures forall l: List :: old(allocated(l)) ==> Stands(l)
      ensures forall n: Node :: old(allocated(n))
                ==> n.owner == old(n.owner) && (n != node ==> n.linked == old(n.linked))
    {
      if head == null { return null; }
      ghost var ns, links := nodes, LinksOf(nodes);
      Capture(ns);
      Ends(ns);
      OnlyAt(ns, 0);
      OnlyAt(ns, 1);
      assert InPlace(ns, 0);
      assert |ns| > 1 ==> InPlace(ns, 1) && ns[1] in ns;
      node := UnlinkFront();
      nodes := nodes[1..];
      assert ns[..0] + ns[1..] == nodes;
      RemoveLinks(ns, links, 0, nodes);
      OthersStand(Change(this, node));
    }

    method UnlinkFront() returns (node: Node)
      requires head != null && head.next != head && size > 0
      modifies this`head, this`tail, this`size, head, head.next
      ensures forall n: Node :: old(allocated(n))
                ==> n.owner == old(n.owner) && (n != node ==> n.linked == old(n.linked))
      ensures node == old(head) && !node.linked && node.previous == null && node.next == null
      ensures var n := old(head.next); n != null ==> n.previous == null && n.next == old(head.next.next)
      ensures head == old(head.next) && tail == (if old(head.next) == null then null else old(tail))
              && size == old(size) - 1
    {
      node := head;
      head := node.next;
      if head != null {
        head.previous := null;
      } else {
        tail := null;
      }
      node.previous := null;
      node.next := null;
      node.linked := false;
      size := size - 1;
    }

    method Remove(node: Node, ghost i: nat)
      requires Valid() && i < |nodes| && nodes[i] == node
      modifies this, nodes
      ensures Valid() && nodes == old(nodes[..i] + nodes[i + 1..])
      ensures !node.linked && node.previous == null && node.next == null
      ensures forall l: List :: old(allocated(l)) ==> Stands(l)
      ensures forall n: Node :: old(allocated(n))
                ==> n.owner == old(n.owner) && (n != node ==> n.linked == old(n.linked))
    {
      ghost var ns, links := nodes, LinksOf(nodes);
      Capture(ns);
      Ends(ns);
      OnlyAt(ns, i);
      OnlyAt(ns, i - 1);
      OnlyAt(ns, i + 1);
      assert InPlace(ns, i);
      assert i > 0 ==> InPlace(ns, i - 1) && ns[i - 1] in ns;
      assert i + 1 < |ns| ==> InPlace(ns, i + 1) && ns[i + 1] in ns;
      assert (node.previous == null || node.previous in ns) && (node.next == null || node.next in ns);
      Unlink(node);
      nodes := nodes[..i] + nodes[i + 1..];
      RemoveLinks(ns, links, i, nodes);
      OthersStand(Change(this, node));
    }

    method Unlink(node: Node)
      requires node.previous != node && node.next != node && (node.previous == null || node.previous != node.next)
               && size > 0
      modifies this`head, this`tail, this`size, node, node.previous, node.next
      ensures forall n: Node :: old(allocated(n))
                ==> n.owner == old(n.owner) && (n != node ==> n.linked == old(n.linked))
      ensures !node.linked && node.previous == null && node.next == null
      ensures var p := old(node.previous);
                p != null ==> p.next == old(node.next) && p.previous == old(node.previous.previous)
      ensures var n := old(node.next); n != null ==> n.previous == old(node.previous) && n.next == old(node.next.next)
      ensures head == (if old(node.previous) == null then old(node.next) else old(head))
      ensures tail == (if old(node.next) == null then old(node.previous) else old(tail)) && size == old(size) - 1
    {
      if node.previous != null {
        node.previous.next := node.next;
      } else {
        head := node.next;
      }
      if node.next != null {
        node.next.previous := node.previous;
      } else {
        tail := node.previous;
      }
      node.previous := null;
      node.next := null;
      node.linked := false;
      size := size - 1;
    }

    /** Bounded search: ends on any heap, and finds every node of a list of at most MAX_TASKS. */
    method Contains(node: Node) returns (found: bool)
      ensures found <==> Reached(head, node)
    {
      var current := head;
      var visited := 0;
      while current != null && visited <= MAX_TASKS
        invariant visited <= MAX_TASKS + 1
        invariant current == Step(head, visited)
        invariant forall k: nat :: k < visited ==> Step(head, k) != node
        decreases MAX_TASKS + 1 - visited
      {
        if current == node { return true; }
        StepNext(head, visited);
        current := current.next;
        visited := visited + 1;
      }
      if current == null {
        forall k: nat | visited <= k ensures Step(head, k) == null { StepEnded(head, visited, k); }
      }
      found := false;
    }
  }

  lemma {:induction false} StepNext(n: Node?, k: nat)
    requires Step(n, k) != null
    ensures Step(n, k + 1) == Step(n, k).next
    decreases k
  {
    if k > 0 { StepNext(n.next, k - 1); }
  }

  lemma {:induction false} StepEnded(n: Node?, j: nat, k: nat)
    requires Step(n, j) == null && j <= k
    ensures Step(n, k) == null
    decreases k
  {
    if n != null && j > 0 { StepEnded(n.next, j - 1, k - 1); }
  }

  /** On a consistent list of at most MAX_TASKS nodes the bounded search is exact. */
  lemma ContainsIsMembership(l: List, node: Node)
    requires l.Valid() && |l.nodes| <= MAX_TASKS
    ensures Reached(l.head, node) <==> node in l.nodes
  {
    if l.nodes != [] {
      forall k: nat ensures Step(l.head, k) == if k < |l.nodes| then l.nodes[k] else null { StepIs(l.nodes, 0, k); }
      if node in l.nodes {
        var i :| 0 <= i < |l.nodes| && l.nodes[i] == node;
        assert Step(l.head, i) == node;
      }
    } else {
      forall k: nat ensures Step(l.head, k) == null { }
    }
  }
}
