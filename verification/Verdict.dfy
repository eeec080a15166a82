/** What a positive verdict of the consistency check means, and why no reachable state fails it. */
module Verdict {
  import opened ReadyBitmap
  import BitmapWord
  import opened KernelState
  import opened IntrusiveList
  import opened Validate

  ghost predicate OwnedBy(n: Node, t: TaskId)
    reads n, n.owner
  {
    n.owner != null && n.owner.id == t
  }

  /** A node of task t is somewhere in ns. */
  ghost predicate Has(ns: seq<Node>, t: TaskId)
    reads *
  {
    exists i :: 0 <= i < |ns| && OwnedBy(ns[i], t)
  }

  lemma {:induction false} OccursMeansHas(ns: seq<Node>, t: TaskId)
    ensures Occurs(ns, t) > 0 <==> Has(ns, t)
    decreases |ns|
  {
    if ns != [] {
      var r := ns[..|ns| - 1];
      OccursMeansHas(r, t);
      if Has(r, t) {
        var i :| 0 <= i < |r| && OwnedBy(r[i], t);
        assert OwnedBy(ns[i], t);
      }
      if Has(ns, t) && !OwnedBy(ns[|ns| - 1], t) {
        var i :| 0 <= i < |ns| && OwnedBy(ns[i], t);
        assert OwnedBy(r[i], t);
      }
      assert OwnedBy(ns[|ns| - 1], t) ==> Has(ns, t);
    }
  }

  lemma {:induction false} TwiceCountsTwo(ns: seq<Node>, t: TaskId, i: nat, j: nat)
    requires i < j < |ns| && OwnedBy(ns[i], t) && OwnedBy(ns[j], t)
    ensures Occurs(ns, t) >= 2
    decreases |ns|
  {
    var r := ns[..|ns| - 1];
    if j < |ns| - 1 {
      assert OwnedBy(r[i], t) && OwnedBy(r[j], t);
      TwiceCountsTwo(r, t, i, j);
    } else {
      assert OwnedBy(r[i], t);
      OccursMeansHas(r, t);
    }
  }

  lemma {:induction false} OccursInOne(lists: seq<seq<Node>>, t: TaskId) returns (k: nat)
    requires OccursIn(lists, t) > 0
    ensures k < |lists| && Has(lists[k], t)
    decreases |lists|
  {
    k := |lists| - 1;
    OccursMeansHas(lists[k], t);
    if Occurs(lists[k], t) == 0 { k := OccursInOne(lists[..k], t); }
  }

  lemma {:induction false} OccursInAtLeast(lists: seq<seq<Node>>, t: TaskId, k: nat)
    requires k < |lists|
    ensures OccursIn(lists, t) >= Occurs(lists[k], t)
    decreases |lists|
  {
    if k < |lists| - 1 { OccursInAtLeast(lists[..|lists| - 1], t, k); }
  }

  lemma {:induction false} OccursInBoth(lists: seq<seq<Node>>, t: TaskId, j: nat, k: nat)
    requires j < k < |lists|
    ensures OccursIn(lists, t) >= Occurs(lists[j], t) + Occurs(lists[k], t)
    decreases |lists|
  {
    var r := lists[..|lists| - 1];
    if k < |lists| - 1 {
      OccursInBoth(r, t, j, k);
    } else {
      OccursInAtLeast(r, t, j);
    }
  }

  /** Each task has at most one node in ns. */
  ghost predicate AtMostOnce(ns: seq<Node>)
    reads *
  {
    forall i, j, t: TaskId :: 0 <= i < j < |ns| && OwnedBy(ns[i], t) ==> !OwnedBy(ns[j], t)
  }

  lemma OnceInEach(lists: seq<seq<Node>>, k: nat)
    requires k < |lists| && forall t: TaskId :: OccursIn(lists, t) <= 1
    ensures AtMostOnce(lists[k])
  {
    forall i, j, t: TaskId | 0 <= i < j < |lists[k]| && OwnedBy(lists[k][i], t) ensures !OwnedBy(lists[k][j], t) {
      OccursInAtLeast(lists, t, k);
      if OwnedBy(lists[k][j], t) { TwiceCountsTwo(lists[k], t, i, j); }
    }
  }

  lemma InAtMostOne(lists: seq<seq<Node>>, t: TaskId, j: nat, k: nat)
    requires j < |lists| && k < |lists| && Has(lists[j], t) && Has(lists[k], t) && OccursIn(lists, t) <= 1
    ensures j == k
  {
    OccursMeansHas(lists[j], t);
    OccursMeansHas(lists[k], t);
    if j < k { OccursInBoth(lists, t, j, k); }
    if k < j { OccursInBoth(lists, t, k, j); }
  }

  // ----- A positive verdict

  lemma HasFits(h: KernelHeap, ns: seq<Node>, kind: Kind, t: TaskId)
    requires AllFit(h.tasks, ns, kind) && Has(ns, t)
    ensures h.tasks[t] != null
    ensures match kind
            case ReadyAt(p) => h.tasks[t].state == Ready && h.tasks[t].eff == p
            case DelayedIn(l) => IsSleeper(h.tasks[t].state) && h.tasks[t].delayList == l
  {
    var i :| 0 <= i < |ns| && OwnedBy(ns[i], t);
    assert Fits(h.tasks, ns[i], kind);
  }

  lemma ReadyIsHeld(h: KernelHeap, found: Found, t: TaskId)
    requires h.Sized() && h.Certified(found) && h.tasks[t].state == Ready
    ensures h.tasks[t].eff < PRIORITY_COUNT && Has(found.ready[h.tasks[t].eff], t)
  {
    assert h.WellPlaced(t, OccursIn(found.ready, t), OccursIn(found.delayed, t));
    var k: Priority := OccursInOne(found.ready, t);
    assert Passes(h.tasks, h.ready[k], ReadyAt(k), found.ready[k]);
    HasFits(h, found.ready[k], ReadyAt(k), t);
  }

  /** The ready lists partition the ready tasks by priority, and the bitmap tells which are empty. */
  lemma ReadyPartition(h: KernelHeap, found: Found, p: Priority, t: TaskId)
    requires h.Sized() && h.Certified(found)
    ensures Has(found.ready[p], t) <==> h.tasks[t].state == Ready && h.tasks[t].eff == p
    ensures AtMostOnce(found.ready[p])
    ensures BitmapWord.HasBit(h.bitmap, p) <==> exists u: TaskId :: h.tasks[u].state == Ready && h.tasks[u].eff == p
  {
    forall u: TaskId ensures Has(found.ready[p], u) <==> h.tasks[u].state == Ready && h.tasks[u].eff == p {
      assert Passes(h.tasks, h.ready[p], ReadyAt(p), found.ready[p]);
      if Has(found.ready[p], u) { HasFits(h, found.ready[p], ReadyAt(p), u); }
      if h.tasks[u].state == Ready { ReadyIsHeld(h, found, u); }
    }
    forall u: TaskId ensures OccursIn(found.ready, u) <= 1 {
      assert h.WellPlaced(u, OccursIn(found.ready, u), OccursIn(found.delayed, u));
    }
    OnceInEach(found.ready, p);
    assert BitmapWord.HasBit(h.bitmap, p) <==> p in BitmapWord.Bits(h.bitmap);
    if found.ready[p] != [] {
      assert Passes(h.tasks, h.ready[p], ReadyAt(p), found.ready[p]);
      assert Fits(h.tasks, found.ready[p][0], ReadyAt(p));
      var u: TaskId := found.ready[p][0].owner.id;
      assert OwnedBy(found.ready[p][0], u);
    }
  }

  /** A task is in a delay list exactly when it is delayed or waits with a time limit, and in one only. */
  lemma DelayMembership(h: KernelHeap, found: Found, t: TaskId)
    requires h.Sized() && h.Certified(found)
    ensures Has(found.delayed[0], t) || Has(found.delayed[1], t) <==>
              h.tasks[t].state == BlockedDelay || (h.tasks[t].state == BlockedObject && h.tasks[t].delayNode.linked)
    ensures !(Has(found.delayed[0], t) && Has(found.delayed[1], t))
    ensures h.tasks[t].state == BlockedObject ==>
              if h.tasks[t].delayNode.linked then h.tasks[t].wakeTick == h.tasks[t].deadline
                else h.tasks[t].deadline == WAIT_FOREVER
  {
    var n := OccursIn(found.delayed, t);
    assert h.WellPlaced(t, OccursIn(found.ready, t), n);
    if n > 0 { var k := OccursInOne(found.delayed, t); }
    forall d: DelayIndex ensures Has(found.delayed[d], t) ==> n > 0 {
      OccursMeansHas(found.delayed[d], t);
      OccursInAtLeast(found.delayed, t, d);
    }
    if Has(found.delayed[0], t) && Has(found.delayed[1], t) { InAtMostOne(found.delayed, t, 0, 1); }
  }

  lemma {:induction false} SortedFrom(tasks: Tcbs, ns: seq<Node>, kind: Kind, i: nat, j: nat)
    requires AllFit(tasks, ns, kind) && kind.DelayedIn? && i <= j < |ns|
    ensures Fits(tasks, ns[i], kind) && Fits(tasks, ns[j], kind) && ns[i].owner.wakeTick <= ns[j].owner.wakeTick
    decreases j - i
  {
    assert Fits(tasks, ns[i], kind) && Fits(tasks, ns[j], kind);
    if i < j {
      SortedFrom(tasks, ns, kind, i, j - 1);
      assert InOrder(tasks, ns[j - 1], ns[j], kind);
    }
  }

  /** Both delay lists really are finite, consistent in both directions and sorted; each task occurs once. */
  lemma DelaySorted(h: KernelHeap, found: Found, d: DelayIndex)
    requires h.Sized() && h.Certified(found)
    ensures AtMostOnce(found.delayed[d]) && Linked(found.delayed[d]) && |found.delayed[d]| == h.delayed[d].size
    ensures forall i, j :: 0 <= i < j < |found.delayed[d]| ==>
              && found.delayed[d][i] != found.delayed[d][j]
              && found.delayed[d][i].owner != null && found.delayed[d][j].owner != null
              && found.delayed[d][i].owner.wakeTick <= found.delayed[d][j].owner.wakeTick
  {
    var ns := found.delayed[d];
    assert Passes(h.tasks, h.delayed[d], DelayedIn(h.delayed[d]), ns);
    AllDistinct(ns);
    forall i, j | 0 <= i < j < |ns|
      ensures ns[i].owner != null && ns[j].owner != null && ns[i].owner.wakeTick <= ns[j].owner.wakeTick {
      SortedFrom(h.tasks, ns, DelayedIn(h.delayed[d]), i, j);
    }
    forall u: TaskId ensures OccursIn(found.delayed, u) <= 1 {
      assert h.WellPlaced(u, OccursIn(found.ready, u), OccursIn(found.delayed, u));
    }
    OnceInEach(found.delayed, d);
  }

  /** No two lists share a node. */
  lemma ListsDisjoint(h: KernelHeap, found: Found, p: Priority, q: Priority, d: DelayIndex, n: Node)
    requires h.Sized() && h.Certified(found) && n in found.ready[p]
    ensures p != q ==> n !in found.ready[q]
    ensures n !in found.delayed[d]
  {
    var t := OwnerOf(h, found.ready[p], ReadyAt(p), h.ready[p], n);
    ReadyPartition(h, found, p, t);
    ReadyPartition(h, found, q, t);
    DelayMembership(h, found, t);
    assert n in found.ready[q] ==> Has(found.ready[q], t);
    assert n in found.delayed[d] ==> Has(found.delayed[d], t);
  }

  lemma OwnerOf(h: KernelHeap, ns: seq<Node>, kind: Kind, l: List, n: Node) returns (t: TaskId)
    requires Passes(h.tasks, l, kind, ns) && n in ns
    ensures OwnedBy(n, t) && Has(ns, t)
  {
    var i :| 0 <= i < |ns| && ns[i] == n;
    assert Fits(h.tasks, ns[i], kind);
    t := n.owner.id;
  }

  /** Exactly the task that `current` points to runs. */
  lemma OnlyCurrentRuns(h: KernelHeap, found: Found, t: TaskId)
    requires h.Sized() && h.Certified(found)
    ensures h.tasks[t].state == Running ==> h.current == h.tasks[t]
    ensures h.current == h.tasks[t] ==> h.tasks[t].state == Running
  {
    assert h.WellPlaced(t, OccursIn(found.ready, t), OccursIn(found.delayed, t));
  }
}
