/** Recomputing effective priorities installs exactly the inherited ones. */
module InheritProofs {
  import opened ReadyBitmap
  import opened KernelState
  import opened Sched
  import opened KernelObjects
  import opened Inheritance
  import opened Placement
  import opened Invariants

  ghost predicate OwnersAreUsers(s: State) {
    forall m: MutexId :: s.mutexes[m].owner.Some? ==> !IsIdle(s.tasks[s.mutexes[m].owner.value])
  }

  ghost predicate IdleUnboosted(tasks: TaskPool) {
    forall t: TaskId :: IsIdle(tasks[t]) ==> tasks[t].eff == IDLE_PRIORITY
  }

  /** Every wanted priority is one that SetEffectivePriority accepts or already in force. */
  ghost predicate Acceptable(tasks: TaskPool, want: seq<nat>) {
    |want| == MAX_TASKS && forall t: TaskId :: want[t] < PRIORITY_COUNT && (want[t] == 0 ==> tasks[t].eff == 0)
  }

  lemma GraphIsWellFormed(s: State)
    ensures WellFormed(GraphOf(s)) && |GraphOf(s).base| == MAX_TASKS
  {
  }

  lemma InheritedIsAcceptable(s: State)
    requires OwnersAreUsers(s) && IdleUnboosted(s.tasks)
    ensures Acceptable(s.tasks, Inherited(GraphOf(s)))
  {
    var g := GraphOf(s);
    forall t: TaskId ensures Inherited(g)[t] < PRIORITY_COUNT && (Inherited(g)[t] == 0 ==> s.tasks[t].eff == 0) {
      var p := AttainingPath(g, t);
      assert g.base[p[0]] == s.tasks[p[0]].base;
      PathIsBound(g, [t]);
      assert g.base[t] == s.tasks[t].base;
    }
  }

  lemma {:induction false} ApplyFromKeeps(s: State, want: seq<nat>, k: nat, x: set<TaskId>)
    requires Containers(s, x) && (forall u: TaskId :: u in x ==> s.tasks[u].state != Ready)
    requires Acceptable(s.tasks, want)
    ensures var r := ApplyFrom(s, want, k);
            && Containers(r, x) && SameWaiters(s, r)
            && forall t: TaskId :: r.tasks[t] == if t < k then s.tasks[t] else s.tasks[t].(eff := want[t])
    decreases MAX_TASKS - k
  {
    if k < MAX_TASKS {
      SetEffectivePriorityKeeps(s, k, want[k], x);
      var s1 := SetEffectivePriority(s, k, want[k]);
      assert s1.tasks[k] == s.tasks[k].(eff := want[k]);
      ApplyFromKeeps(s1, want, k + 1, x);
    }
  }

  lemma WaitersChangedKeeps(s: State, x: set<TaskId>)
    requires Containers(s, x) && (forall u: TaskId :: u in x ==> s.tasks[u].state != Ready)
    requires OwnersAreUsers(s) && IdleUnboosted(s.tasks)
    ensures var r := WaitersChanged(s);
            && Containers(r, x) && Quiet(s, r) && PrioritiesInherited(r) && GraphOf(r) == GraphOf(s)
            && (forall t: TaskId :: r.tasks[t] == s.tasks[t].(eff := Inherited(GraphOf(s))[t]))
            && r == s.(tasks := r.tasks, lists := r.lists, bitmap := r.bitmap)
  {
    var v := Inherited(GraphOf(s));
    InheritedIsAcceptable(s);
    ApplyFromKeeps(s, v, 0, x);
    var r := WaitersChanged(s);
    assert Quiet(s, r);
    QuietKeepsGraph(s, r);
    assert Priorities(r) == v;
  }

  /** A task nobody can wait for keeps its base priority: Idle is never boosted. */
  lemma IdleInheritsNothing(s: State, t: TaskId)
    requires OwnersAreUsers(s) && IsIdle(s.tasks[t])
    ensures Inherited(GraphOf(s))[t] == 0
  {
    var g := GraphOf(s);
    assert forall w: TaskId :: g.next[w] == WaitsFor(s, w);
    UnwaitedKeepsBase(g, t);
    assert g.base[t] == s.tasks[t].base;
  }
}
