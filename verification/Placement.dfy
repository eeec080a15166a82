/** Every task sits in exactly the list its state demands, and the list operations keep it so. */
module Placement {
  import opened Wrappers
  import opened ReadyBitmap
  import opened KernelState
  import opened TaskLists
  import opened Sched

  /** The list the schedule node of a task belongs in. */
  function Home(task: Task): Option<ListId> {
    match task.state
    case Ready => Some(ReadyList(task.eff))
    case BlockedObject => if task.wait.Some? then Some(WaitList(task.wait.value)) else None
    case _ => None
  }

  /** List membership is exact, except that the tasks in x are in no list at all:
      they are on their way from one list to another. */
  ghost predicate Placed(tasks: TaskPool, lists: Lists, x: set<TaskId>) {
    forall l: ListId, t: TaskId {:trigger t in At(lists, l)} :: t in At(lists, l)
      <==> t !in x && Home(tasks[t]) == Some(l)
  }

  ghost predicate Distinct(lists: Lists) {
    forall l: ListId {:trigger NoDuplicates(At(lists, l))} :: NoDuplicates(At(lists, l))
  }

  /** Every list is in descending order of effective priority. */
  ghost predicate Ordered(tasks: TaskPool, lists: Lists) {
    forall l: ListId {:trigger ByPriority(tasks, At(lists, l))} :: ByPriority(tasks, At(lists, l))
  }

  ghost predicate BitmapExact(bitmap: set<Priority>, lists: Lists) {
    forall p: Priority :: p in bitmap <==> At(lists, ReadyList(p)) != []
  }

  ghost predicate Containers(s: State, x: set<TaskId>) {
    && Placed(s.tasks, s.lists, x)
    && Distinct(s.lists)
    && Ordered(s.tasks, s.lists)
    && BitmapExact(s.bitmap, s.lists)
  }

  /** The lists of waiting tasks have the same members (perhaps in another order). */
  ghost predicate SameWaiters(s: State, r: State) {
    forall l: WaitId, t: TaskId :: t in At(r.lists, WaitList(l)) <==> t in At(s.lists, WaitList(l))
  }

  // ----- Replacing one list moves tasks in (out of x) or out (into y)

  lemma ReplacePlaced(tasks: TaskPool, lists: Lists, l: ListId, q: seq<TaskId>, x: set<TaskId>, y: set<TaskId>)
    requires Placed(tasks, lists, x)
    requires forall u: TaskId :: u in q <==> u !in y && Home(tasks[u]) == Some(l)
    requires forall u: TaskId :: (u in x) != (u in y) ==> Home(tasks[u]) == Some(l)
    ensures Placed(tasks, SetAt(lists, l, q), y)
  {
    var r := SetAt(lists, l, q);
    forall k: ListId, u: TaskId ensures u in At(r, k) <==> u !in y && Home(tasks[u]) == Some(k) {
      if k != l {
        assert At(r, k) == At(lists, k);
        assert u in At(lists, k) <==> u !in x && Home(tasks[u]) == Some(k);
      }
    }
  }

  lemma ReplaceDistinct(lists: Lists, l: ListId, q: seq<TaskId>)
    requires Distinct(lists) && NoDuplicates(q)
    ensures Distinct(SetAt(lists, l, q))
  {
    var r := SetAt(lists, l, q);
    forall k: ListId ensures NoDuplicates(At(r, k)) {
      if k != l { assert At(r, k) == At(lists, k); }
    }
  }

  lemma ReplaceOrdered(tasks: TaskPool, lists: Lists, l: ListId, q: seq<TaskId>)
    requires Ordered(tasks, lists) && ByPriority(tasks, q)
    ensures Ordered(tasks, SetAt(lists, l, q))
  {
    var r := SetAt(lists, l, q);
    forall k: ListId ensures ByPriority(tasks, At(r, k)) {
      if k != l { assert At(r, k) == At(lists, k); }
    }
  }

  lemma ReplaceKeeps(tasks: TaskPool, lists: Lists, l: ListId, q: seq<TaskId>, x: set<TaskId>, y: set<TaskId>)
    requires Placed(tasks, lists, x) && Distinct(lists) && Ordered(tasks, lists)
    requires NoDuplicates(q) && ByPriority(tasks, q)
    requires forall u: TaskId :: u in q <==> u !in y && Home(tasks[u]) == Some(l)
    requires forall u: TaskId :: (u in x) != (u in y) ==> Home(tasks[u]) == Some(l)
    ensures Placed(tasks, SetAt(lists, l, q), y) && Distinct(SetAt(lists, l, q)) && Ordered(tasks, SetAt(lists, l, q))
  {
    ReplacePlaced(tasks, lists, l, q, x, y);
    ReplaceDistinct(lists, l, q);
    ReplaceOrdered(tasks, lists, l, q);
  }

  lemma BitmapUnlink(bitmap: set<Priority>, lists: Lists, p: Priority, q: seq<TaskId>)
    requires BitmapExact(bitmap, lists) && At(lists, ReadyList(p)) != []
    ensures BitmapExact(if q == [] then bitmap - {p} else bitmap, SetAt(lists, ReadyList(p), q))
  {
  }

  lemma BitmapLink(bitmap: set<Priority>, lists: Lists, p: Priority, q: seq<TaskId>)
    requires BitmapExact(bitmap, lists) && q != []
    ensures BitmapExact(bitmap + {p}, SetAt(lists, ReadyList(p), q))
  {
  }

  lemma BitmapWaitList(bitmap: set<Priority>, lists: Lists, l: WaitId, q: seq<TaskId>)
    requires BitmapExact(bitmap, lists)
    ensures BitmapExact(bitmap, SetAt(lists, WaitList(l), q))
  {
  }

  // ----- Ready lists

  lemma EnqueueKeeps(s: State, t: TaskId, x: set<TaskId>)
    requires Containers(s, x) && t in x && s.tasks[t].state == Ready
    ensures Containers(ReadyEnqueue(s, t), x - {t})
    ensures forall l: ListId :: At(ReadyEnqueue(s, t).lists, l) ==
                                if l == ReadyList(s.tasks[t].eff) then At(s.lists, l) + [t] else At(s.lists, l)
  {
    var l := ReadyList(s.tasks[t].eff);
    var q := At(s.lists, l);
    assert t !in q;
    forall i | 0 <= i < |q| ensures s.tasks[q[i]].eff >= s.tasks[t].eff {
      assert q[i] in At(s.lists, l);
    }
    PushByPriority(s.tasks, q, t);
    ReplaceKeeps(s.tasks, s.lists, l, q + [t], x, x - {t});
    BitmapLink(s.bitmap, s.lists, s.tasks[t].eff, q + [t]);
  }

  lemma UnlinkKeeps(s: State, p: Priority, t: TaskId, q: seq<TaskId>, x: set<TaskId>)
    requires Containers(s, x) && t in At(s.lists, ReadyList(p))
    requires NoDuplicates(q) && ByPriority(s.tasks, q)
    requires forall u: TaskId :: u in q <==> u in At(s.lists, ReadyList(p)) && u != t
    ensures Containers(Unlink(s, p, q), x + {t})
  {
    ReplaceKeeps(s.tasks, s.lists, ReadyList(p), q, x, x + {t});
    BitmapUnlink(s.bitmap, s.lists, p, q);
  }

  lemma ReadyRemoveKeeps(s: State, t: TaskId, x: set<TaskId>)
    requires Containers(s, x) && s.tasks[t].state == Ready && t !in x
    ensures Containers(ReadyRemove(s, t), x + {t})
    ensures t in At(s.lists, ReadyList(s.tasks[t].eff))
    ensures SameWaiters(s, ReadyRemove(s, t))
  {
    var l := ReadyList(s.tasks[t].eff);
    assert t in At(s.lists, l);
    WithoutMembers(At(s.lists, l), t);
    WithoutByPriority(s.tasks, At(s.lists, l), t);
    UnlinkKeeps(s, s.tasks[t].eff, t, Without(At(s.lists, l), t), x);
  }

  lemma PopMembers(tasks: TaskPool, q: seq<TaskId>)
    requires q != [] && NoDuplicates(q) && ByPriority(tasks, q)
    ensures NoDuplicates(q[1..]) && ByPriority(tasks, q[1..])
    ensures forall u: TaskId :: u in q[1..] <==> u in q && u != q[0]
  {
    assert q == [q[0]] + q[1..];
  }

  /** The bitmap scan finds the highest priority of any ready task. */
  lemma ReadyHighestIsHighest(s: State)
    requires Containers(s, {})
    ensures forall u: TaskId :: s.tasks[u].state == Ready ==> s.tasks[u].eff <= ReadyHighest(s)
    ensures ReadyHighest(s) >= 0 ==>
              var q := At(s.lists, ReadyList(ReadyHighest(s)));
              q != [] && s.tasks[q[0]].state == Ready && s.tasks[q[0]].eff == ReadyHighest(s)
  {
    var p := ReadyHighest(s);
    forall u: TaskId | s.tasks[u].state == Ready ensures s.tasks[u].eff <= p {
      assert u in At(s.lists, ReadyList(s.tasks[u].eff));
      assert s.tasks[u].eff in s.bitmap;
    }
    if p >= 0 {
      var q := At(s.lists, ReadyList(p));
      assert q[0] in q;
      assert Home(s.tasks[q[0]]) == Some(ReadyList(p));
    }
  }

  function AsSet(t: Option<TaskId>): set<TaskId> {
    if t.Some? then {t.value} else {}
  }

  lemma PopHighestKeeps(s: State)
    requires Containers(s, {})
    ensures var (r, next) := PopHighest(s); Containers(r, AsSet(next)) && r == s.(lists := r.lists, bitmap := r.bitmap)
    ensures PopHighest(s).1 == None <==> ReadyHighest(s) < 0
  {
    ReadyHighestIsHighest(s);
    var p := ReadyHighest(s);
    if p >= 0 {
      var q := At(s.lists, ReadyList(p));
      PopMembers(s.tasks, q);
      UnlinkKeeps(s, p, q[0], q[1..], {});
      assert {} + {q[0]} == {q[0]};
    }
  }

  /** Popping the ready lists takes the first task of the highest priority, if any is ready. */
  lemma PopHighestTakes(s: State)
    requires Containers(s, {})
    ensures var next := PopHighest(s).1;
            if next == None then forall u: TaskId :: s.tasks[u].state != Ready
            else s.tasks[next.value].state == Ready
                 && forall u: TaskId :: s.tasks[u].state == Ready ==> s.tasks[u].eff <= s.tasks[next.value].eff
  {
    ReadyHighestIsHighest(s);
  }

  // ----- Changing a TCB

  /** A task that is in no list may change in any way. */
  lemma RetaskKeeps(s: State, t: TaskId, task: Task, x: set<TaskId>)
    requires Containers(s, x) && t in x
    ensures Containers(SetTask(s, t, task), x)
    ensures Home(task) == None ==> Containers(SetTask(s, t, task), x - {t})
  {
    var r := SetTask(s, t, task);
    forall l: ListId ensures ByPriority(r.tasks, At(r.lists, l)) {
      assert ByPriority(s.tasks, At(s.lists, l));
      forall i | 0 <= i < |At(s.lists, l)| ensures At(s.lists, l)[i] != t {
        assert At(s.lists, l)[i] in At(s.lists, l);
      }
    }
  }

  /** A task without a home is in no list, so it may as well be on its way. */
  lemma HomelessIsFree(s: State, t: TaskId, x: set<TaskId>)
    requires Containers(s, x) && Home(s.tasks[t]) == None
    ensures Containers(s, x + {t}) && Containers(s, x - {t})
  {
  }

  /** Changes that affect neither home nor priority of any task are harmless. */
  lemma SameHomesKeep(s: State, r: State, x: set<TaskId>)
    requires Containers(s, x) && r.lists == s.lists && r.bitmap == s.bitmap
    requires forall t: TaskId :: r.tasks[t].eff == s.tasks[t].eff && Home(r.tasks[t]) == Home(s.tasks[t])
    ensures Containers(r, x)
  {
    forall l: ListId ensures ByPriority(r.tasks, At(r.lists, l)) {
      assert ByPriority(s.tasks, At(s.lists, l));
    }
  }

  // ----- Waiting lists

  lemma WaitRemoveKeeps(s: State, t: TaskId, l: WaitId, x: set<TaskId>)
    requires Containers(s, x) && Home(s.tasks[t]) == Some(WaitList(l)) && t !in x
    ensures t in At(s.lists, WaitList(l))
    ensures Containers(s.(lists := SetAt(s.lists, WaitList(l), Without(At(s.lists, WaitList(l)), t))), x + {t})
    ensures forall u: TaskId :: u in Without(At(s.lists, WaitList(l)), t) <==> u in At(s.lists, WaitList(l)) && u != t
  {
    assert t in At(s.lists, WaitList(l));
    var q := Without(At(s.lists, WaitList(l)), t);
    WithoutMembers(At(s.lists, WaitList(l)), t);
    WithoutByPriority(s.tasks, At(s.lists, WaitList(l)), t);
    ReplaceKeeps(s.tasks, s.lists, WaitList(l), q, x, x + {t});
    BitmapWaitList(s.bitmap, s.lists, l, q);
  }

  lemma WaitInsertKeeps(s: State, t: TaskId, l: WaitId, x: set<TaskId>)
    requires Containers(s, x) && t in x && Home(s.tasks[t]) == Some(WaitList(l))
    ensures Containers(WaitInsert(s, l, t), x - {t})
    ensures forall u: TaskId :: u in At(WaitInsert(s, l, t).lists, WaitList(l))
              <==> u in At(s.lists, WaitList(l)) || u == t
    ensures forall k: ListId :: k != WaitList(l) ==> At(WaitInsert(s, l, t).lists, k) == At(s.lists, k)
  {
    var q := At(s.lists, WaitList(l));
    assert t !in q;
    var i := PriorityPos(s.tasks, q, s.tasks[t].eff);
    InsertMembers(q, i, t);
    InsertByPriority(s.tasks, q, t);
    ReplaceKeeps(s.tasks, s.lists, WaitList(l), InsertAt(q, i, t), x, x - {t});
    BitmapWaitList(s.bitmap, s.lists, l, InsertAt(q, i, t));
  }

  lemma WaitPopKeeps(s: State, l: WaitId, x: set<TaskId>)
    requires Containers(s, x)
    ensures var (r, w) := WaitPop(s, l); r == s.(lists := r.lists) && Containers(r, x + AsSet(w))
    ensures var (r, w) := WaitPop(s, l);
            forall k: WaitId, u: TaskId :: u in At(r.lists, WaitList(k))
              <==> u in At(s.lists, WaitList(k)) && w != Some(u)
    ensures var (r, w) := WaitPop(s, l); forall p: Priority :: At(r.lists, ReadyList(p)) == At(s.lists, ReadyList(p))
  {
    var q := At(s.lists, WaitList(l));
    if q != [] {
      assert q[0] in q;
      PopMembers(s.tasks, q);
      ReplaceKeeps(s.tasks, s.lists, WaitList(l), q[1..], x, x + {q[0]});
      BitmapWaitList(s.bitmap, s.lists, l, q[1..]);
    } else {
      assert x + {} == x;
    }
  }

  /** Popping a waiting list takes out a waiter of the highest priority. */
  lemma WaitPopTakes(s: State, l: WaitId, x: set<TaskId>)
    requires Containers(s, x)
    ensures var w := WaitPop(s, l).1;
            if w == None then forall u: TaskId :: u in x || Home(s.tasks[u]) != Some(WaitList(l))
            else w.value !in x && Home(s.tasks[w.value]) == Some(WaitList(l))
                 && forall u: TaskId :: u !in x && Home(s.tasks[u]) == Some(WaitList(l))
                      ==> s.tasks[u].eff <= s.tasks[w.value].eff
  {
    var q := At(s.lists, WaitList(l));
    forall u: TaskId | u !in x && Home(s.tasks[u]) == Some(WaitList(l))
      ensures q != [] && s.tasks[u].eff <= s.tasks[q[0]].eff
    {
      assert u in q;
      assert ByPriority(s.tasks, q);
    }
    if q != [] { assert q[0] in q; }
  }

  // ----- Changing an effective priority

  /** What changing an effective priority does to the TCBs. */
  function Reprioritised(tasks: TaskPool, t: TaskId, p: nat): TaskPool {
    if IDLE_PRIORITY < p < PRIORITY_COUNT then tasks[t := tasks[t].(eff := p)] else tasks
  }

  lemma UnlistedPriorityKeeps(s: State, t: TaskId, p: Priority, x: set<TaskId>)
    requires Containers(s, x) && (t in x || Home(s.tasks[t]) == None)
    ensures Containers(SetTask(s, t, s.tasks[t].(eff := p)), x + {t})
    ensures t !in x ==> Containers(SetTask(s, t, s.tasks[t].(eff := p)), x)
  {
    if t in x { assert x + {t} == x; } else { HomelessIsFree(s, t, x); }
    RetaskKeeps(s, t, s.tasks[t].(eff := p), x + {t});
    assert t !in x ==> x + {t} - {t} == x;
  }

  lemma MoveReadyKeeps(s: State, t: TaskId, p: Priority, x: set<TaskId>)
    requires Containers(s, x) && t !in x && s.tasks[t].state == Ready
    ensures Containers(MoveReady(s, t, p), x) && SameWaiters(s, MoveReady(s, t, p))
    ensures t in At(s.lists, ReadyList(s.tasks[t].eff))
    ensures MoveReady(s, t, p).tasks == s.tasks[t := s.tasks[t].(eff := p)]
  {
    ReadyRemoveKeeps(s, t, x);
    var s1 := ReadyRemove(s, t);
    RetaskKeeps(s1, t, s.tasks[t].(eff := p), x + {t});
    EnqueueKeeps(SetTask(s1, t, s.tasks[t].(eff := p)), t, x + {t});
    assert x + {t} - {t} == x;
  }

  lemma MoveWaitingKeeps(s: State, t: TaskId, p: Priority, l: WaitId, x: set<TaskId>)
    requires Containers(s, x) && t !in x && Home(s.tasks[t]) == Some(WaitList(l))
    ensures t in At(s.lists, WaitList(l))
    ensures Containers(MoveWaiting(s, t, p, l), x) && SameWaiters(s, MoveWaiting(s, t, p, l))
    ensures MoveWaiting(s, t, p, l).tasks == s.tasks[t := s.tasks[t].(eff := p)]
  {
    WaitRemoveKeeps(s, t, l, x);
    var s1 := s.(lists := SetAt(s.lists, WaitList(l), Without(At(s.lists, WaitList(l)), t)));
    var s2 := SetTask(s1, t, s.tasks[t].(eff := p));
    assert Containers(s2, x + {t}) by { RetaskKeeps(s1, t, s.tasks[t].(eff := p), x + {t}); }
    assert x + {t} - {t} == x;
    WaitInsertKeeps(s2, t, l, x + {t});
  }

  /** Changing a priority moves the task to its new place and disturbs nothing else,
      even while the tasks in x are on their way from a waiting list to a ready list. */
  lemma SetEffectivePriorityKeeps(s: State, t: TaskId, p: nat, x: set<TaskId>)
    requires Containers(s, x) && forall u: TaskId :: u in x ==> s.tasks[u].state != Ready
    ensures var r := SetEffectivePriority(s, t, p);
            Containers(r, x) && SameWaiters(s, r) && r.tasks == Reprioritised(s.tasks, t, p)
  {
    var task, r := s.tasks[t], SetEffectivePriority(s, t, p);
    if p <= IDLE_PRIORITY || p >= PRIORITY_COUNT || task.eff == p {
      assert s.tasks[t := task] == s.tasks && r == s;
    } else if t in x || Home(task) == None {
      assert Home(task).Some? ==> t !in At(s.lists, Home(task).value);
      assert r == SetTask(s, t, task.(eff := p));
      UnlistedPriorityKeeps(s, t, p, x);
      assert t in x ==> x + {t} == x;
    } else if task.state == Ready {
      MoveReadyKeeps(s, t, p, x);
      assert r == MoveReady(s, t, p);
    } else {
      MoveWaitingKeeps(s, t, p, task.wait.value, x);
      assert r == MoveWaiting(s, t, p, task.wait.value);
    }
  }

  /** Unless a ready task moves, changing a priority leaves the ready lists alone. */
  lemma SameReadyLists(s: State, u: TaskId, p: nat)
    requires !(0 < p < PRIORITY_COUNT && s.tasks[u].eff != p && s.tasks[u].state == Ready
               && u in At(s.lists, ReadyList(s.tasks[u].eff)))
    ensures forall k: Priority :: At(SetEffectivePriority(s, u, p).lists, ReadyList(k)) == At(s.lists, ReadyList(k))
  {
  }
}
