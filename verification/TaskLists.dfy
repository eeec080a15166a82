/** The list operations of the kernel on the sequences that IntrusiveList refines. */
module TaskLists {
  import opened KernelState

  ghost predicate NoDuplicates(q: seq<TaskId>) {
    forall i, j :: 0 <= i < j < |q| ==> q[i] != q[j]
  }

  function IndexOf(q: seq<TaskId>, t: TaskId): (i: nat)
    requires t in q
    ensures i < |q| && q[i] == t && t !in q[..i]
  {
    if q[0] == t then 0 else 1 + IndexOf(q[1..], t)
  }

  /** os_ListRemove */
  function Without(q: seq<TaskId>, t: TaskId): (r: seq<TaskId>)
    requires t in q
    ensures |r| == |q| - 1
  {
    var i := IndexOf(q, t);
    q[..i] + q[i + 1..]
  }

  /** os_ListInsertBefore, or os_ListPushBack when i is the length. */
  function InsertAt(q: seq<TaskId>, i: nat, t: TaskId): (r: seq<TaskId>)
    requires i <= |q|
    ensures |r| == |q| + 1 && r[i] == t
  {
    q[..i] + [t] + q[i..]
  }

  lemma WithoutMembers(q: seq<TaskId>, t: TaskId)
    requires t in q && NoDuplicates(q)
    ensures NoDuplicates(Without(q, t))
    ensures forall u: TaskId :: u in Without(q, t) <==> u in q && u != t
  {
    var i := IndexOf(q, t);
    var r := Without(q, t);
    forall u: TaskId | u in q && u != t ensures u in r {
      var j :| 0 <= j < |q| && q[j] == u;
      if j < i { assert r[j] == u; } else { assert r[j - 1] == u; }
    }
  }

  lemma InsertMembers(q: seq<TaskId>, i: nat, t: TaskId)
    requires i <= |q| && t !in q && NoDuplicates(q)
    ensures NoDuplicates(InsertAt(q, i, t))
    ensures forall u: TaskId :: u in InsertAt(q, i, t) <==> u in q || u == t
  {
    var r := InsertAt(q, i, t);
    forall u: TaskId | u in q ensures u in r {
      var j :| 0 <= j < |q| && q[j] == u;
      if j < i { assert r[j] == u; } else { assert r[j + 1] == u; }
    }
  }

  // ----- Lists in descending priority order

  ghost predicate ByPriority(tasks: TaskPool, q: seq<TaskId>) {
    forall i, j :: 0 <= i < j < |q| ==> tasks[q[i]].eff >= tasks[q[j]].eff
  }

  /** Where a task of priority p goes: before the first task with a lower priority. */
  function PriorityPos(tasks: TaskPool, q: seq<TaskId>, p: nat): (i: nat)
    ensures i <= |q|
    ensures forall j :: 0 <= j < i ==> tasks[q[j]].eff >= p
    ensures i < |q| ==> tasks[q[i]].eff < p
  {
    if |q| == 0 || p > tasks[q[0]].eff then 0 else
      var r := PriorityPos(tasks, q[1..], p);
      assert forall j :: 1 <= j < 1 + r ==> q[j] == q[1..][j - 1];
      1 + r
  }

  lemma InsertByPriority(tasks: TaskPool, q: seq<TaskId>, t: TaskId)
    requires ByPriority(tasks, q)
    ensures ByPriority(tasks, InsertAt(q, PriorityPos(tasks, q, tasks[t].eff), t))
  {
  }

  lemma PushByPriority(tasks: TaskPool, q: seq<TaskId>, t: TaskId)
    requires NoDuplicates(q) && t !in q && ByPriority(tasks, q)
    requires forall i :: 0 <= i < |q| ==> tasks[q[i]].eff >= tasks[t].eff
    ensures NoDuplicates(q + [t]) && ByPriority(tasks, q + [t])
    ensures forall u: TaskId :: u in q + [t] <==> u in q || u == t
  {
  }

  lemma WithoutByPriority(tasks: TaskPool, q: seq<TaskId>, t: TaskId)
    requires t in q && ByPriority(tasks, q)
    ensures ByPriority(tasks, Without(q, t))
  {
  }

  // ----- Lists in ascending wake tick order

  ghost predicate ByWakeTick(tasks: TaskPool, q: seq<TaskId>) {
    forall i, j :: 0 <= i < j < |q| ==> tasks[q[i]].wakeTick <= tasks[q[j]].wakeTick
  }

  /** Where a task waking at `target` goes: after every task waking no later (FIFO among equals). */
  function WakePos(tasks: TaskPool, q: seq<TaskId>, target: nat): (i: nat)
    ensures i <= |q|
    ensures forall j :: 0 <= j < i ==> tasks[q[j]].wakeTick <= target
    ensures i < |q| ==> target < tasks[q[i]].wakeTick
  {
    if |q| == 0 || target < tasks[q[0]].wakeTick then 0 else
      var r := WakePos(tasks, q[1..], target);
      assert forall j :: 1 <= j < 1 + r ==> q[j] == q[1..][j - 1];
      1 + r
  }

  lemma InsertByWakeTick(tasks: TaskPool, q: seq<TaskId>, t: TaskId)
    requires ByWakeTick(tasks, q)
    ensures ByWakeTick(tasks, InsertAt(q, WakePos(tasks, q, tasks[t].wakeTick), t))
  {
  }

  lemma WithoutByWakeTick(tasks: TaskPool, q: seq<TaskId>, t: TaskId)
    requires t in q && ByWakeTick(tasks, q)
    ensures ByWakeTick(tasks, Without(q, t))
  {
  }

  // ----- Scans for an insertion point

  /** The scan for an insertion point stops where the specification says. */
  lemma {:induction false} PriorityPosIs(tasks: TaskPool, q: seq<TaskId>, p: nat, i: nat)
    requires i <= |q| && (forall j :: 0 <= j < i ==> tasks[q[j]].eff >= p) && (i < |q| ==> tasks[q[i]].eff < p)
    ensures PriorityPos(tasks, q, p) == i
    decreases |q|
  {
    if i > 0 {
      assert tasks[q[0]].eff >= p;
      forall j | 0 <= j < i - 1 ensures tasks[q[1..][j]].eff >= p { assert q[1..][j] == q[j + 1]; }
      PriorityPosIs(tasks, q[1..], p, i - 1);
    }
  }

  lemma {:induction false} WakePosIs(tasks: TaskPool, q: seq<TaskId>, target: nat, i: nat)
    requires i <= |q| && (forall j :: 0 <= j < i ==> tasks[q[j]].wakeTick <= target)
             && (i < |q| ==> target < tasks[q[i]].wakeTick)
    ensures WakePos(tasks, q, target) == i
    decreases |q|
  {
    if i > 0 {
      assert tasks[q[0]].wakeTick <= target;
      forall j | 0 <= j < i - 1 ensures tasks[q[1..][j]].wakeTick <= target { assert q[1..][j] == q[j + 1]; }
      WakePosIs(tasks, q[1..], target, i - 1);
    }
  }
}
