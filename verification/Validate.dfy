/** The kernel's own consistency check (os_KernelValidate) on a heap of arbitrary shape. */
module Validate {
  import opened ReadyBitmap
  import BitmapWord
  import opened KernelState
  import opened IntrusiveList

  /** What a list is supposed to hold: ready tasks of one priority, or sleepers of one delay list. */
  datatype Kind = ReadyAt(priority: Priority) | DelayedIn(list: List)

  type Tcbs = s: seq<Tcb?> | |s| == MAX_TASKS witness seq(MAX_TASKS, _ => null)

  predicate IsSleeper(state: TaskState) {
    state == BlockedDelay || state == BlockedObject
  }

  /** The node belongs to a TCB of the pool that may be in such a list. */
  predicate Fits(tasks: Tcbs, n: Node, kind: Kind)
    reads *
  {
    && n.owner != null && n.owner.id < MAX_TASKS && tasks[n.owner.id] == n.owner
    && match kind
       case ReadyAt(p) => n.owner.state == Ready && n.owner.eff == p
       case DelayedIn(l) => IsSleeper(n.owner.state) && n.owner.delayList == l
  }

  /** m may follow n. */
  predicate InOrder(tasks: Tcbs, n: Node?, m: Node, kind: Kind)
    requires Fits(tasks, m, kind) && (n != null ==> Fits(tasks, n, kind))
    reads *
  {
    kind.DelayedIn? && n != null ==> n.owner.wakeTick <= m.owner.wakeTick
  }

  ghost predicate AllFit(tasks: Tcbs, ns: seq<Node>, kind: Kind)
    reads *
  {
    && (forall i :: 0 <= i < |ns| ==> Fits(tasks, ns[i], kind))
    && (forall i :: 0 < i < |ns| ==> InOrder(tasks, ns[i - 1], ns[i], kind))
  }

  /** The nodes ns are exactly what list l consists of, and everything about them is right. */
  ghost predicate Passes(tasks: Tcbs, l: List, kind: Kind, ns: seq<Node>)
    reads *
  {
    && |ns| <= MAX_TASKS && l.head == First(ns) && l.tail == Last(ns) && l.size == |ns|
    && Linked(ns) && AllFit(tasks, ns, kind)
  }

  /** Where the walk stands after the nodes ns. */
  ghost function NextOf(l: List, ns: seq<Node>): Node?
    reads *
  {
    if ns == [] then l.head else ns[|ns| - 1].next
  }

  ghost predicate Checked(ns: seq<Node>, i: nat)
    requires i < |ns|
    reads ns
  {
    ns[i].linked && ns[i].previous == (if i == 0 then null else ns[i - 1]) && (i + 1 < |ns| ==> ns[i].next == ns[i + 1])
  }

  /** The walk has seen the nodes ns and found nothing wrong with them. */
  ghost predicate Seen(tasks: Tcbs, l: List, kind: Kind, ns: seq<Node>)
    reads *
  {
    && |ns| <= MAX_TASKS && (ns != [] ==> ns[0] == l.head)
    && (forall i :: 0 <= i < |ns| ==> Checked(ns, i))
    && AllFit(tasks, ns, kind)
  }

  lemma {:induction false} SeenIsPrefix(tasks: Tcbs, l: List, kind: Kind, ns: seq<Node>, ms: seq<Node>, k: nat)
    requires Seen(tasks, l, kind, ns) && Passes(tasks, l, kind, ms) && k <= |ns|
    ensures k <= |ms| && forall i :: 0 <= i < k ==> ns[i] == ms[i]
    decreases k
  {
    if k > 0 {
      SeenIsPrefix(tasks, l, kind, ns, ms, k - 1);
      if k > 1 {
        assert Checked(ns, k - 2);
        assert InPlace(ms, k - 2);
      }
    }
  }

  /** If the list is in order with nodes ms, the walk goes on along ms. */
  lemma GoesOn(tasks: Tcbs, l: List, kind: Kind, ns: seq<Node>, ms: seq<Node>)
    requires Seen(tasks, l, kind, ns) && Passes(tasks, l, kind, ms)
    ensures |ns| <= |ms| && ns == ms[..|ns|] && NextOf(l, ns) == if |ns| < |ms| then ms[|ns|] else null
  {
    SeenIsPrefix(tasks, l, kind, ns, ms, |ns|);
    if ns != [] { assert InPlace(ms, |ns| - 1); }
  }

  predicate MayFollow(tasks: Tcbs, ns: seq<Node>, node: Node, kind: Kind)
    requires ns != [] ==> Fits(tasks, ns[|ns| - 1], kind)
    reads *
  {
    |ns| < MAX_TASKS && node.linked && node.previous == Last(ns) && Fits(tasks, node, kind)
      && InOrder(tasks, Last(ns), node, kind)
  }

  lemma NextFollows(tasks: Tcbs, l: List, kind: Kind, ns: seq<Node>, ms: seq<Node>, node: Node)
    requires Seen(tasks, l, kind, ns) && Passes(tasks, l, kind, ms) && node == NextOf(l, ns)
    ensures MayFollow(tasks, ns, node, kind)
  {
    GoesOn(tasks, l, kind, ns, ms);
    var k := |ns|;
    assert InPlace(ms, k) && Fits(tasks, ms[k], kind);
    if k > 0 { assert InOrder(tasks, ms[k - 1], ms[k], kind); }
  }

  /** A walk that can not go on proves that the list is not in order. */
  lemma Stuck(tasks: Tcbs, l: List, kind: Kind, ns: seq<Node>, node: Node)
    requires Seen(tasks, l, kind, ns) && node == NextOf(l, ns) && !MayFollow(tasks, ns, node, kind)
    ensures forall ms :: !Passes(tasks, l, kind, ms)
  {
    forall ms ensures !Passes(tasks, l, kind, ms) {
      if Passes(tasks, l, kind, ms) { NextFollows(tasks, l, kind, ns, ms, node); }
    }
  }

  lemma WrongEnd(tasks: Tcbs, l: List, kind: Kind, ns: seq<Node>)
    requires Seen(tasks, l, kind, ns) && NextOf(l, ns) == null && (|ns| != l.size || Last(ns) != l.tail)
    ensures forall ms :: !Passes(tasks, l, kind, ms)
  {
    forall ms ensures !Passes(tasks, l, kind, ms) {
      if Passes(tasks, l, kind, ms) { GoesOn(tasks, l, kind, ns, ms); }
    }
  }

  lemma SeenMore(tasks: Tcbs, l: List, kind: Kind, ns: seq<Node>, node: Node)
    requires Seen(tasks, l, kind, ns) && node == NextOf(l, ns) && MayFollow(tasks, ns, node, kind)
    ensures Seen(tasks, l, kind, ns + [node]) && NextOf(l, ns + [node]) == node.next
  {
    var r := ns + [node];
    forall i | 0 <= i < |r| ensures Checked(r, i) {
      if i < |ns| { assert Checked(ns, i); }
    }
    forall i | 0 < i < |r| ensures InOrder(tasks, r[i - 1], r[i], kind) {
      if i < |ns| { assert InOrder(tasks, ns[i - 1], ns[i], kind); }
    }
  }

  lemma SeenAll(tasks: Tcbs, l: List, kind: Kind, ns: seq<Node>)
    requires Seen(tasks, l, kind, ns) && NextOf(l, ns) == null && |ns| == l.size && Last(ns) == l.tail
    ensures Passes(tasks, l, kind, ns)
  {
    forall i | 0 <= i < |ns| ensures InPlace(ns, i) { assert Checked(ns, i); }
  }

  /** A list has at most one sequence of nodes. */
  lemma OnlyOne(tasks: Tcbs, l: List, kind: Kind, ns: seq<Node>, ms: seq<Node>)
    requires Passes(tasks, l, kind, ns) && Passes(tasks, l, kind, ms)
    ensures ns == ms
  {
    if ns != [] { SharedNode(ns, 0, ms, 0); }
  }

  // ----- Membership counters

  /** The nodes of ns that belong to task t. */
  ghost function Occurs(ns: seq<Node>, t: TaskId): nat
    reads *
  {
    if ns == [] then 0
    else (if ns[|ns| - 1].owner != null && ns[|ns| - 1].owner.id == t then 1 else 0) + Occurs(ns[..|ns| - 1], t)
  }

  type Counters = s: seq<nat> | |s| == MAX_TASKS witness seq(MAX_TASKS, _ => 0)

  lemma OccursOneMore(ns: seq<Node>, n: Node, t: TaskId)
    ensures Occurs(ns + [n], t) == Occurs(ns, t) + if n.owner != null && n.owner.id == t then 1 else 0
  {
    assert (ns + [n])[..|ns|] == ns;
  }

  /** Walks one list; it ends on any heap, with `ok` exactly when the list is in order. */
  method Walk(tasks: Tcbs, l: List, kind: Kind, membership: Counters)
      returns (ok: bool, counts: Counters, count: nat, ghost ns: seq<Node>)
    ensures ok ==> Passes(tasks, l, kind, ns) && count == |ns|
    ensures ok ==> forall t: TaskId :: counts[t] == membership[t] + Occurs(ns, t)
    ensures !ok ==> forall ms :: !Passes(tasks, l, kind, ms)
  {
    ns, ok, counts, count := [], false, membership, 0;
    var node, previous := l.head, null;
    while node != null
      invariant count == |ns| && Seen(tasks, l, kind, ns) && node == NextOf(l, ns) && previous == Last(ns)
      invariant forall t: TaskId :: counts[t] == membership[t] + Occurs(ns, t)
      decreases MAX_TASKS - count
    {
      if count >= MAX_TASKS || !node.linked || node.previous != previous || !Fits(tasks, node, kind)
        || !InOrder(tasks, previous, node, kind) {
        Stuck(tasks, l, kind, ns, node);
        return;
      }
      counts := counts[node.owner.id := counts[node.owner.id] + 1];
      forall t: TaskId { OccursOneMore(ns, node, t); }
      SeenMore(tasks, l, kind, ns, node);
      ns := ns + [node];
      previous := node;
      node := node.next;
      count := count + 1;
    }
    if count != l.size || previous != l.tail {
      WrongEnd(tasks, l, kind, ns);
      return;
    }
    SeenAll(tasks, l, kind, ns);
    ok := true;
  }

  // ----- The whole kernel

  /** The nodes found in the ready lists and in the two delay lists. */
  datatype Found = Found(ready: seq<seq<Node>>, delayed: seq<seq<Node>>)

  /** Occurrences of task t in all lists together. */
  ghost function OccursIn(lists: seq<seq<Node>>, t: TaskId): nat
    reads *
  {
    if lists == [] then 0 else OccursIn(lists[..|lists| - 1], t) + Occurs(lists[|lists| - 1], t)
  }

  /** The priorities below k whose ready list is not empty. */
  ghost function Filled(lists: seq<seq<Node>>): set<Priority> {
    set p: Priority | p < |lists| && lists[p] != []
  }

  lemma OccursInOneMore(lists: seq<seq<Node>>, ns: seq<Node>, t: TaskId)
    ensures OccursIn(lists + [ns], t) == OccursIn(lists, t) + Occurs(ns, t)
  {
    assert (lists + [ns])[..|lists|] == lists;
  }

  lemma FilledOneMore(lists: seq<seq<Node>>, ns: seq<Node>)
    requires |lists| < PRIORITY_COUNT
    ensures var p: Priority := |lists|; Filled(lists + [ns]) == if ns == [] then Filled(lists) else Filled(lists) + {p}
  {
  }

  class KernelHeap {
    var initialized: bool
    var taskCount: nat
    var tasks: Tcbs
    var ready: seq<List>
    var delayed: seq<List>
    var waits: map<WaitId, List>
    var px: List?
    var overflow: List?
    var bitmap: bv8
    var current: Tcb?
    ghost var tcbs: set<Tcb>
    ghost var nodes: set<Node>
    ghost var headers: set<List>

    constructor (tasks: Tcbs, ready: seq<List>, delayed: seq<List>, waits: map<WaitId, List>)
      requires |ready| == PRIORITY_COUNT && |delayed| == 2 && forall t: TaskId :: tasks[t] != null
      ensures Sized() && initialized && taskCount == 0 && current == null && bitmap == 0
      ensures this.tasks == tasks && this.ready == ready && this.delayed == delayed && this.waits == waits
      ensures px == delayed[0] && overflow == delayed[1]
      ensures tcbs == (set c: Tcb | c in tasks)
      ensures nodes == (set c: Tcb | c in tasks :: c.scheduleNode) + (set c: Tcb | c in tasks :: c.delayNode)
      ensures headers == (set l | l in ready) + (set l | l in delayed) + (set w | w in waits :: waits[w])
    {
      initialized, taskCount, this.tasks, this.ready, this.delayed, this.waits := true, 0, tasks, ready, delayed, waits;
      px, overflow, bitmap, current := delayed[0], delayed[1], 0, null;
      tcbs := set c: Tcb | c in tasks;
      nodes := (set c: Tcb | c in tasks :: c.scheduleNode) + (set c: Tcb | c in tasks :: c.delayNode);
      headers := (set l | l in ready) + (set l | l in delayed) + (set w | w in waits :: waits[w]);
    }

    /** The pools have their compile-time sizes. */
    predicate Sized()
      reads this
    {
      |ready| == PRIORITY_COUNT && |delayed| == 2 && forall t: TaskId :: tasks[t] != null
    }

    ghost predicate ReadyInOrder(found: seq<seq<Node>>)
      requires |found| <= |ready| == PRIORITY_COUNT
      reads *
    {
      forall p: Priority :: p < |found| ==> Passes(tasks, ready[p], ReadyAt(p), found[p])
    }

    ghost predicate DelayedInOrder(found: seq<seq<Node>>)
      requires |found| <= |delayed| == 2
      reads *
    {
      forall d: DelayIndex :: d < |found| ==> Passes(tasks, delayed[d], DelayedIn(delayed[d]), found[d])
    }

    /** Rebuilds the counters of the ready lists and the bitmap. */
    method WalkReady() returns (ok: bool, counts: Counters, mask: bv8, ghost found: seq<seq<Node>>)
      requires Sized()
      ensures ok ==> |found| == PRIORITY_COUNT && ReadyInOrder(found) && BitmapWord.Bits(mask) == Filled(found)
      ensures ok ==> forall t: TaskId :: counts[t] == OccursIn(found, t)
      ensures !ok ==> forall f :: |f| == PRIORITY_COUNT ==> !ReadyInOrder(f)
    {
      ok, counts, mask, found := true, seq(MAX_TASKS, _ => 0), 0, [];
      assert forall p: Priority :: !BitmapWord.HasBit(0, p);
      var priority := 0;
      while priority < PRIORITY_COUNT
        invariant priority == |found| <= PRIORITY_COUNT && ReadyInOrder(found) && BitmapWord.Bits(mask) == Filled(found)
        invariant forall t: TaskId :: counts[t] == OccursIn(found, t)
      {
        var count;
        ghost var ns;
        ok, counts, count, ns := Walk(tasks, ready[priority], ReadyAt(priority), counts);
        if !ok { return; }
        if count > 0 { mask := BitmapWord.SetBit(mask, priority); }
        forall t: TaskId { OccursInOneMore(found, ns, t); }
        FilledOneMore(found, ns);
        found := found + [ns];
        priority := priority + 1;
      }
    }

    method WalkDelayed() returns (ok: bool, counts: Counters, ghost found: seq<seq<Node>>)
      requires Sized()
      ensures ok ==> |found| == 2 && DelayedInOrder(found)
      ensures ok ==> forall t: TaskId :: counts[t] == OccursIn(found, t)
      ensures !ok ==> forall f :: |f| == 2 ==> !DelayedInOrder(f)
    {
      ok, counts, found := true, seq(MAX_TASKS, _ => 0), [];
      var d := 0;
      while d < 2
        invariant d == |found| <= 2 && DelayedInOrder(found)
        invariant forall t: TaskId :: counts[t] == OccursIn(found, t)
      {
        var count;
        ghost var ns;
        ok, counts, count, ns := Walk(tasks, delayed[d], DelayedIn(delayed[d]), counts);
        if !ok { return; }
        forall t: TaskId { OccursInOneMore(found, ns, t); }
        found := found + [ns];
        d := d + 1;
      }
    }

    predicate PrioritiesFit(task: Tcb)
      reads task
    {
      if task.base == IDLE_PRIORITY then task.eff == IDLE_PRIORITY
      else task.base < PRIORITY_COUNT && task.base <= task.eff < PRIORITY_COUNT
    }

    ghost predicate Holds(l: List?, n: Node)
      reads *
    {
      l != null && Reached(l.head, n)
    }

    /** A task that occurs r times in ready lists and d times in delay lists is where its state says. */
    ghost predicate WellPlaced(t: TaskId, r: nat, d: nat)
      requires Sized()
      reads *
    {
      var task := tasks[t];
      && task.id == t && task.scheduleNode.owner == task && task.delayNode.owner == task
      && (task.state != Unused ==> PrioritiesFit(task))
      && match task.state
         case Unused => r == 0 && d == 0 && !task.scheduleNode.linked && !task.delayNode.linked
         case Ready => r == 1 && d == 0 && !task.delayNode.linked && !task.waiting && task.waitList == null
         case BlockedDelay => r == 0 && d == 1 && task.delayNode.linked && !task.scheduleNode.linked
         case Running =>
           && current == task && r == 0 && d == 0 && !task.scheduleNode.linked && !task.delayNode.linked
           && !task.waiting && task.waitList == null
         case BlockedObject =>
           && r == 0 && task.scheduleNode.linked && task.waiting && Holds(task.waitList, task.scheduleNode)
           && if task.delayNode.linked then d == 1 && task.delayList != null && task.wakeTick == task.deadline
              else d == 0 && task.delayList == null && task.deadline == WAIT_FOREVER
         case Terminated => r == 0 && d == 0 && !task.scheduleNode.linked && !task.delayNode.linked
    }

    /** The same decision as the switch over the task states, taken step by step. */
    method CheckTask(t: TaskId, r: nat, d: nat) returns (ok: bool)
      requires Sized()
      ensures ok <==> WellPlaced(t, r, d)
    {
      var task := tasks[t];
      if task.id != t || task.scheduleNode.owner != task || task.delayNode.owner != task { return false; }
      if task.state == Unused {
        return r == 0 && d == 0 && !task.scheduleNode.linked && !task.delayNode.linked;
      }
      if !PrioritiesFit(task) { return false; }
      match task.state {
        case Ready => ok := r == 1 && d == 0 && !task.delayNode.linked && !task.waiting && task.waitList == null;
        case BlockedDelay => ok := r == 0 && d == 1 && task.delayNode.linked && !task.scheduleNode.linked;
        case Running =>
          ok := current == task && r == 0 && d == 0 && !task.scheduleNode.linked && !task.delayNode.linked;
          ok := ok && !task.waiting && task.waitList == null;
        case BlockedObject =>
          if r != 0 || !task.scheduleNode.linked || !task.waiting || task.waitList == null { return false; }
          var held := task.waitList.Contains(task.scheduleNode);
          if !held { return false; }
          if task.delayNode.linked {
            ok := d == 1 && task.delayList != null && task.wakeTick == task.deadline;
          } else {
            ok := d == 0 && task.delayList == null && task.deadline == WAIT_FOREVER;
          }
        case Terminated => ok := r == 0 && d == 0 && !task.scheduleNode.linked && !task.delayNode.linked;
      }
    }

    /** How many of the first k tasks are in use, and how many run. */
    function Used(k: nat): nat
      requires k <= MAX_TASKS && Sized()
      reads this, set t: TaskId | t < k :: tasks[t]
    {
      if k == 0 then 0 else Used(k - 1) + if tasks[k - 1].state != Unused then 1 else 0
    }

    function RunningBelow(k: nat): nat
      requires k <= MAX_TASKS && Sized()
      reads this, set t: TaskId | t < k :: tasks[t]
    {
      if k == 0 then 0 else RunningBelow(k - 1) + if tasks[k - 1].state == Running then 1 else 0
    }

    ghost predicate AllPlaced(found: Found)
      requires Sized()
      reads *
    {
      forall t: TaskId :: WellPlaced(t, OccursIn(found.ready, t), OccursIn(found.delayed, t))
    }

    predicate CountsFit()
      requires Sized()
      reads this, tasks, current
    {
      && Used(MAX_TASKS) == taskCount && RunningBelow(MAX_TASKS) <= 1
      && (current != null ==> current.state == Running)
      && (current == null ==> RunningBelow(MAX_TASKS) == 0)
    }

    /** Everything the check is about, for given contents of the lists. */
    ghost predicate Certified(found: Found)
      requires Sized()
      reads *
    {
      && initialized && taskCount <= MAX_TASKS
      && |found.ready| == PRIORITY_COUNT && ReadyInOrder(found.ready) && BitmapWord.Bits(bitmap) == Filled(found.ready)
      && px != null && overflow != null && px != overflow
      && |found.delayed| == 2 && DelayedInOrder(found.delayed)
      && AllPlaced(found) && CountsFit()
    }

    lemma ReadyIsUnique(f: seq<seq<Node>>, g: seq<seq<Node>>)
      requires |f| == |g| == PRIORITY_COUNT == |ready| && ReadyInOrder(f) && ReadyInOrder(g)
      ensures f == g
    {
      forall p: Priority ensures f[p] == g[p] {
        OnlyOne(tasks, ready[p], ReadyAt(p), f[p], g[p]);
      }
    }

    lemma DelayedIsUnique(f: seq<seq<Node>>, g: seq<seq<Node>>)
      requires |f| == |g| == 2 == |delayed| && DelayedInOrder(f) && DelayedInOrder(g)
      ensures f == g
    {
      forall d: DelayIndex ensures f[d] == g[d] {
        OnlyOne(tasks, delayed[d], DelayedIn(delayed[d]), f[d], g[d]);
      }
    }

    lemma NotCertified(f: Found)
      requires Sized() && |f.ready| == PRIORITY_COUNT && |f.delayed| == 2 && ReadyInOrder(f.ready)
               && DelayedInOrder(f.delayed)
      requires !Certified(f)
      ensures forall g :: !Certified(g)
    {
      forall g ensures !Certified(g) {
        if Certified(g) {
          ReadyIsUnique(f.ready, g.ready);
          DelayedIsUnique(f.delayed, g.delayed);
        }
      }
    }

    method CheckTasks(readyCounts: Counters, delayCounts: Counters) returns (ok: bool, used: nat, running: nat)
      requires Sized()
      ensures ok <==> forall t: TaskId :: WellPlaced(t, readyCounts[t], delayCounts[t])
      ensures ok ==> used == Used(MAX_TASKS) && running == RunningBelow(MAX_TASKS)
    {
      ok, used, running := false, 0, 0;
      var index := 0;
      while index < MAX_TASKS
        invariant index <= MAX_TASKS && used == Used(index) && running == RunningBelow(index)
        invariant forall t: TaskId :: t < index ==> WellPlaced(t, readyCounts[t], delayCounts[t])
      {
        var placed := CheckTask(index, readyCounts[index], delayCounts[index]);
        if !placed { return; }
        if tasks[index].state != Unused { used := used + 1; }
        if tasks[index].state == Running { running := running + 1; }
        index := index + 1;
      }
      ok := true;
    }

    /** os_KernelValidate: ends on any heap, and accepts exactly the heaps whose lists really
        contain some nodes that make everything fit. */
    method KernelValidate() returns (ok: bool)
      requires Sized()
      ensures ok <==> exists found: Found :: Certified(found)
    {
      if !initialized || taskCount > MAX_TASKS { return false; }
      var good, readyCounts, mask;
      ghost var r, d;
      good, readyCounts, mask, r := WalkReady();
      if !good || mask != bitmap {
        if good { BitmapWord.SameBits(mask, bitmap); NoOtherBitmap(r); }
        return false;
      }
      if px == null || overflow == null || px == overflow { return false; }
      var delayCounts;
      good, delayCounts, d := WalkDelayed();
      if !good { return false; }
      var found := Found(r, d);
      var used, running;
      good, used, running := CheckTasks(readyCounts, delayCounts);
      assert good <==> AllPlaced(found);
      ok := good && used == taskCount && running <= 1 && (current != null ==> current.state == Running)
        && (current == null ==> running == 0);
      if ok { assert Certified(found); } else { NotCertified(found); }
    }

    lemma NoOtherBitmap(r: seq<seq<Node>>)
      requires Sized() && |r| == PRIORITY_COUNT && ReadyInOrder(r) && BitmapWord.Bits(bitmap) != Filled(r)
      ensures forall g :: !Certified(g)
    {
      forall g ensures !Certified(g) {
        if Certified(g) { ReadyIsUnique(r, g.ready); }
      }
    }
  }
}
