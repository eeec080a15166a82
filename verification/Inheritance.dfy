/** Priority inheritance over the waits-for graph of a set of tasks; deadlock cycles are allowed. */
module Inheritance {
  import opened Wrappers

  /** A task waits for at most one mutex, so it has at most one successor: the owner of that mutex. */
  datatype Graph = Graph(base: seq<nat>, next: seq<Option<nat>>)

  ghost predicate WellFormed(g: Graph) {
    && |g.next| == |g.base|
    && forall t :: 0 <= t < |g.next| && g.next[t].Some? ==> g.next[t].value < |g.base|
  }

  /** w waits on a mutex that o owns. */
  ghost predicate Edge(g: Graph, w: int, o: int) {
    0 <= w < |g.base| == |g.next| && 0 <= o < |g.base| && g.next[w] == Some(o)
  }

  ghost predicate Path(g: Graph, p: seq<nat>) {
    && |p| > 0
    && (forall i :: 0 <= i < |p| ==> p[i] < |g.base|)
    && (forall i :: 0 <= i < |p| - 1 ==> Edge(g, p[i], p[i + 1]))
  }

  ghost predicate Reaches(g: Graph, s: nat, t: nat) {
    exists p :: Path(g, p) && p[0] == s && p[|p| - 1] == t
  }

  /** The highest base priority among the tasks below k that reach t. */
  ghost function BestBelow(g: Graph, t: nat, k: nat): (b: nat)
    requires k <= |g.base|
  {
    if k == 0 then 0
    else
      var rest := BestBelow(g, t, k - 1);
      if Reaches(g, k - 1, t) && g.base[k - 1] > rest then g.base[k - 1] else rest
  }

  /** The declarative meaning of inheritance: each task runs at the highest base
      priority among itself and all tasks that transitively wait for it. */
  ghost function Inherited(g: Graph): (v: seq<nat>)
    ensures |v| == |g.base|
  {
    seq(|g.base|, t requires 0 <= t < |g.base| => BestBelow(g, t, |g.base|))
  }

  ghost predicate Closed(g: Graph, v: seq<nat>) {
    && |v| == |g.base|
    && (forall t :: 0 <= t < |v| ==> g.base[t] <= v[t])
    && (forall w, o :: Edge(g, w, o) ==> v[w] <= v[o])
  }

  // ----- BestBelow is a maximum over the tasks that reach t

  lemma {:induction false} BestBelowIsBound(g: Graph, t: nat, k: nat, s: nat)
    requires k <= |g.base| && s < k && Reaches(g, s, t)
    ensures g.base[s] <= BestBelow(g, t, k)
  {
    if s < k - 1 {
      BestBelowIsBound(g, t, k - 1, s);
    }
  }

  lemma {:induction false} BestBelowIsAttained(g: Graph, t: nat, k: nat)
    requires k <= |g.base|
    ensures BestBelow(g, t, k) == 0 || exists s :: 0 <= s < k && Reaches(g, s, t) && g.base[s] == BestBelow(g, t, k)
  {
    if k > 0 {
      BestBelowIsAttained(g, t, k - 1);
    }
  }

  /** Every waiting chain that ends in t bounds the inherited priority of t from below. */
  lemma PathIsBound(g: Graph, p: seq<nat>)
    requires Path(g, p)
    ensures g.base[p[0]] <= Inherited(g)[p[|p| - 1]]
  {
    var t := p[|p| - 1];
    assert Reaches(g, p[0], t);
    BestBelowIsBound(g, t, |g.base|, p[0]);
  }

  /** ... and some chain attains it. */
  lemma AttainingPath(g: Graph, t: nat) returns (p: seq<nat>)
    requires t < |g.base|
    ensures Path(g, p) && p[|p| - 1] == t && g.base[p[0]] == Inherited(g)[t]
  {
    BestBelowIsAttained(g, t, |g.base|);
    if BestBelow(g, t, |g.base|) == 0 {
      p := [t];
      PathIsBound(g, p);
    } else {
      var s :| 0 <= s < |g.base| && Reaches(g, s, t) && g.base[s] == BestBelow(g, t, |g.base|);
      p :| Path(g, p) && p[0] == s && p[|p| - 1] == t;
    }
  }

  // ----- Inherited is the least closed assignment

  lemma InheritedIsClosed(g: Graph)
    requires WellFormed(g)
    ensures Closed(g, Inherited(g))
  {
    var v := Inherited(g);
    forall t | 0 <= t < |v| ensures g.base[t] <= v[t] {
      PathIsBound(g, [t]);
    }
    forall w, o | Edge(g, w, o) ensures v[w] <= v[o] {
      var p := AttainingPath(g, w);
      var q := p + [o];
      forall i | 0 <= i < |q| - 1 ensures Edge(g, q[i], q[i + 1]) {
        if i < |p| - 1 { assert Edge(g, p[i], p[i + 1]); }
      }
      PathIsBound(g, q);
    }
  }

  lemma {:induction false} ClosedAlongPath(g: Graph, v: seq<nat>, p: seq<nat>)
    requires Closed(g, v) && Path(g, p)
    ensures g.base[p[0]] <= v[p[|p| - 1]]
    decreases |p|
  {
    if |p| > 1 {
      var q := p[..|p| - 1];
      ClosedAlongPath(g, v, q);
      assert Edge(g, p[|p| - 2], p[|p| - 1]);
    }
  }

  lemma InheritedIsLeast(g: Graph, v: seq<nat>)
    requires Closed(g, v)
    ensures forall t :: 0 <= t < |v| ==> Inherited(g)[t] <= v[t]
  {
    forall t | 0 <= t < |v| ensures Inherited(g)[t] <= v[t] {
      var p := AttainingPath(g, t);
      ClosedAlongPath(g, v, p);
    }
  }

  lemma LastEdge(g: Graph, p: seq<nat>)
    requires Path(g, p) && |p| > 1
    ensures Edge(g, p[|p| - 2], p[|p| - 1])
  {
  }

  /** A task nobody waits for runs at its base priority. */
  lemma UnwaitedKeepsBase(g: Graph, t: nat)
    requires t < |g.base| && forall w :: !Edge(g, w, t)
    ensures Inherited(g)[t] == g.base[t]
  {
    var p := AttainingPath(g, t);
    if |p| > 1 {
      LastEdge(g, p);
    }
  }

  // ----- How inheritance reacts when waiting starts or ends

  /** Task w starts waiting for o.  Priorities only rise, and whoever rises ends no
      higher than o does: checking the direct owner is enough. */
  lemma WaitingStarts(g: Graph, g': Graph, w: nat, o: nat)
    requires WellFormed(g) && WellFormed(g') && w < |g.base| && o < |g.base|
    requires g.next[w] == None
    requires g' == g.(next := g.next[w := Some(o)])
    ensures forall t :: 0 <= t < |g.base| ==> Inherited(g)[t] <= Inherited(g')[t]
    ensures forall t :: 0 <= t < |g.base|
              ==> Inherited(g')[t] == Inherited(g)[t] || Inherited(g')[t] <= Inherited(g')[o]
  {
    var v, v' := Inherited(g), Inherited(g');
    InheritedIsClosed(g');
    assert Closed(g, v') by {
      forall a, b | Edge(g, a, b) ensures v'[a] <= v'[b] {
        assert Edge(g', a, b);
      }
    }
    InheritedIsLeast(g, v');
    forall t | 0 <= t < |g.base| ensures v'[t] == v[t] || v'[t] <= v'[o] {
      var p := AttainingPath(g', t);
      if i :| 0 <= i < |p| - 1 && p[i] == w {
        assert Edge(g', p[i], p[i + 1]);
        var q := p[..i + 2];
        assert Path(g', q) by {
          forall j | 0 <= j < |q| - 1 ensures Edge(g', q[j], q[j + 1]) {
            assert Edge(g', p[j], p[j + 1]);
          }
        }
        PathIsBound(g', q);
      } else {
        PathAvoiding(g', g, p, w);
        PathIsBound(g, p);
      }
    }
  }

  /** A path survives a graph change that only touches the successor of a task the
      path does not leave from. */
  lemma PathAvoiding(g: Graph, g': Graph, p: seq<nat>, w: nat)
    requires Path(g, p) && |g.base| == |g'.base| && |g.next| == |g'.next|
    requires forall i :: 0 <= i < |p| - 1 ==> p[i] != w
    requires forall a :: 0 <= a < |g.next| && a != w ==> g.next[a] == g'.next[a]
    ensures Path(g', p)
  {
    forall i | 0 <= i < |p| - 1 ensures Edge(g', p[i], p[i + 1]) {
      assert Edge(g, p[i], p[i + 1]);
    }
  }

  /** Task w stops waiting (timeout).  Priorities only fall, and whoever falls had at
      most the priority that w still has. */
  lemma WaitingStops(g: Graph, g': Graph, w: nat)
    requires WellFormed(g) && WellFormed(g') && w < |g.base|
    requires g' == g.(next := g.next[w := None])
    ensures forall t :: 0 <= t < |g.base| ==> Inherited(g')[t] <= Inherited(g)[t]
    ensures forall t :: 0 <= t < |g.base| ==> Inherited(g')[t] == Inherited(g)[t] || Inherited(g)[t] <= Inherited(g')[w]
  {
    var v, v' := Inherited(g), Inherited(g');
    InheritedIsClosed(g);
    assert Closed(g', v) by {
      forall a, b | Edge(g', a, b) ensures v[a] <= v[b] {
        assert Edge(g, a, b);
      }
    }
    InheritedIsLeast(g', v);
    forall t | 0 <= t < |g.base| ensures v'[t] == v[t] || v[t] <= v'[w] {
      var p := AttainingPath(g, t);
      if exists i :: 0 <= i < |p| - 1 && p[i] == w {
        var q := PrefixTo(g, p, w);
        PathAvoiding(g, g', q, w);
        PathIsBound(g', q);
      } else {
        PathAvoiding(g, g', p, w);
        PathIsBound(g', p);
      }
    }
  }

  lemma {:induction false} PrefixTo(g: Graph, p: seq<nat>, w: nat) returns (q: seq<nat>)
    requires Path(g, p) && exists i :: 0 <= i < |p| && p[i] == w
    ensures Path(g, q) && q[0] == p[0] && q[|q| - 1] == w
    ensures forall i :: 0 <= i < |q| - 1 ==> q[i] != w
    decreases |p|
  {
    if i :| 0 <= i < |p| - 1 && p[i] == w {
      var r := p[..|p| - 1];
      assert r[i] == w;
      q := PrefixTo(g, r, w);
    } else {
      q := p;
    }
  }

  /** The last place at which the path leaves w. */
  lemma {:induction false} LastLeaving(p: seq<nat>, w: nat, k: nat) returns (i: nat)
    requires k < |p| && p[k] == w
    ensures k <= i < |p| && p[i] == w && forall j :: i < j < |p| ==> p[j] != w
    decreases |p| - k
  {
    if j :| k < j < |p| && p[j] == w { i := LastLeaving(p, w, j); } else { i := k; }
  }

  /** Whoever rises when w starts to wait for o is reached from o, and rises to no more than w has. */
  lemma RiserIsReached(g: Graph, g': Graph, w: nat, o: nat, n: nat) returns (q: seq<nat>)
    requires WellFormed(g) && WellFormed(g') && w < |g.base| && o < |g.base| && n < |g.base| && n != w
    requires g.next[w] == None && g' == g.(next := g.next[w := Some(o)]) && Inherited(g')[n] > Inherited(g)[n]
    ensures Path(g, q) && q[0] == o && q[|q| - 1] == n && Inherited(g')[n] <= Inherited(g)[w]
  {
    var p := AttainingPath(g', n);
    if forall i :: 0 <= i < |p| - 1 ==> p[i] != w {
      PathAvoiding(g', g, p, w);
      PathIsBound(g, p);
    }
    var k: nat :| k < |p| - 1 && p[k] == w;
    q := AfterLeaving(g, g', w, o, p, k);
    var a := PrefixTo(g', p, w);
    PathAvoiding(g', g, a, w);
    PathIsBound(g, a);
  }

  lemma AfterLeaving(g: Graph, g': Graph, w: nat, o: nat, p: seq<nat>, k: nat) returns (q: seq<nat>)
    requires WellFormed(g) && w < |g.base| && o < |g.base| && g' == g.(next := g.next[w := Some(o)]) && Path(g', p)
    requires k < |p| - 1 && p[k] == w && p[|p| - 1] != w
    ensures Path(g, q) && q[0] == o && q[|q| - 1] == p[|p| - 1]
  {
    var i := LastLeaving(p, w, k);
    q := p[i + 1..];
    assert Edge(g', p[i], p[i + 1]);
    assert Path(g', q) by {
      forall j | 0 <= j < |q| - 1 ensures Edge(g', q[j], q[j + 1]) { assert Edge(g', p[i + 1 + j], p[i + 2 + j]); }
    }
    PathAvoiding(g', g, q, w);
  }

  /** The running task c hands a mutex to its top waiter w; the other waiters of that
      mutex now wait for w.  Priorities only fall, and c falls only below w. */
  lemma OwnershipMoves(g: Graph, g': Graph, c: nat, w: nat)
    requires WellFormed(g) && WellFormed(g') && g'.base == g.base
    requires c < |g.base| && w < |g.base|
    requires g.next[c] == None && g.next[w] == Some(c) && g'.next[w] == None
    requires forall t :: 0 <= t < |g.base| && t != w && g'.next[t] != g.next[t] ==>
                           g.next[t] == Some(c) && g'.next[t] == Some(w) && Inherited(g)[t] <= Inherited(g)[w]
    ensures forall t :: 0 <= t < |g.base| ==> Inherited(g')[t] <= Inherited(g)[t]
    ensures Inherited(g')[w] == Inherited(g)[w]
    ensures Inherited(g')[c] == Inherited(g)[c] || Inherited(g)[c] == Inherited(g')[w]
  {
    var v, v' := Inherited(g), Inherited(g');
    InheritedIsClosed(g);
    assert Closed(g', v) by {
      forall a, b | Edge(g', a, b) ensures v[a] <= v[b] {
        if g'.next[a] == g.next[a] { assert Edge(g, a, b); }
      }
    }
    InheritedIsLeast(g', v);
    var p := AttainingPath(g, w);
    PathAwayFrom(g, g', p, c);
    PathIsBound(g', p);
    var q := AttainingPath(g, c);
    if |q| == 1 {
      PathIsBound(g', q);
    } else {
      var r := q[..|q| - 1];
      var x := r[|r| - 1];
      assert Edge(g, x, c) by { assert Edge(g, q[|q| - 2], q[|q| - 1]); }
      assert Path(g, r) by {
        forall i | 0 <= i < |r| - 1 ensures Edge(g, r[i], r[i + 1]) { assert Edge(g, q[i], q[i + 1]); }
      }
      PathIsBound(g, r);
      assert v[c] <= v[x];
      assert Edge(g, w, c);
      if x != w && g'.next[x] == g.next[x] {
        PathAwayFrom(g, g', r, c);
        forall i | 0 <= i < |q| - 1 ensures Edge(g', q[i], q[i + 1]) {
          if i < |r| - 1 { assert Edge(g', r[i], r[i + 1]); }
        }
        PathIsBound(g', q);
      }
    }
  }

  /** A path that ends elsewhere never passes through c, which waits for nobody. */
  lemma PathAwayFrom(g: Graph, g': Graph, p: seq<nat>, c: nat)
    requires Path(g, p) && c < |g.next| == |g'.next| && |g.base| == |g'.base|
    requires g.next[c] == None && p[|p| - 1] != c
    requires forall t :: 0 <= t < |g.next| && g.next[t] != Some(c) ==> g'.next[t] == g.next[t]
    ensures Path(g', p)
  {
    forall i | 0 <= i < |p| - 1 ensures Edge(g', p[i], p[i + 1]) {
      assert Edge(g, p[i], p[i + 1]);
      if i + 1 < |p| - 1 { assert Edge(g, p[i + 1], p[i + 2]); }
    }
  }

  // ----- The pass bound: level sets

  /** The tasks at priority v or above. */
  ghost function Above(d: seq<nat>, v: nat): (r: set<nat>)
    ensures |r| <= |d|
  {
    var r := set t | 0 <= t < |d| && d[t] >= v;
    SubrangeSize(r, |d|);
    r
  }

  lemma {:induction false} SubrangeSize(r: set<nat>, n: nat)
    requires forall t :: t in r ==> t < n
    ensures |r| <= n
    decreases n
  {
    if n == 0 {
      assert r == {};
    } else {
      SubrangeSize(r - {n - 1}, n - 1);
      if n - 1 in r { assert |r| == |r - {n - 1}| + 1; } else { assert r - {n - 1} == r; }
    }
  }

  ghost predicate LevelClosed(g: Graph, d: seq<nat>, v: nat)
    requires |d| == |g.base|
  {
    forall w, o :: Edge(g, w, o) && d[w] >= v ==> d[o] >= v
  }

  /** After k full passes every level either is final or has more than k members. */
  ghost predicate Progress(g: Graph, d: seq<nat>, k: nat)
    requires |d| == |g.base|
  {
    forall v: nat :: LevelClosed(g, d, v) || |Above(d, v)| > k
  }

  lemma ProgressStarts(g: Graph)
    requires WellFormed(g)
    ensures Progress(g, g.base, 0)
  {
    forall v: nat ensures LevelClosed(g, g.base, v) || |Above(g.base, v)| > 0 {
      if w :| 0 <= w < |g.base| && g.base[w] >= v {
        assert w in Above(g.base, v);
      }
    }
  }

  /** What one in-place pass guarantees, whatever the order of the mutexes. */
  ghost predicate PassDone(g: Graph, d: seq<nat>, d': seq<nat>) {
    && |d| == |d'| == |g.base|
    && (forall t :: 0 <= t < |d| ==> g.base[t] <= d[t] <= d'[t] <= Inherited(g)[t])
    && (forall w, o :: Edge(g, w, o) ==> d[w] <= d'[o])
  }

  lemma ProgressPass(g: Graph, d: seq<nat>, d': seq<nat>, k: nat)
    requires WellFormed(g) && PassDone(g, d, d') && Progress(g, d, k)
    ensures Progress(g, d', k + 1)
  {
    forall v: nat ensures LevelClosed(g, d', v) || |Above(d', v)| > k + 1 {
      assert LevelClosed(g, d, v) || |Above(d, v)| > k;
      if LevelClosed(g, d, v) {
        ClosedLevelIsFinal(g, d, v);
      } else {
        var w, o :| Edge(g, w, o) && d[w] >= v && d[o] < v;
        assert o in Above(d', v) && o !in Above(d, v);
        GrowsByOne(Above(d, v), Above(d', v), o);
      }
    }
  }

  lemma GrowsByOne(a: set<nat>, b: set<nat>, x: nat)
    requires a <= b && x in b && x !in a
    ensures |b| > |a|
  {
    SubsetSize(a, b - {x});
    assert |b - {x}| == |b| - 1;
  }

  lemma {:induction false} SubsetSize(a: set<nat>, b: set<nat>)
    requires a <= b
    ensures |a| <= |b|
    decreases a
  {
    if x :| x in a {
      SubsetSize(a - {x}, b - {x});
      assert |a - {x}| == |a| - 1 && |b - {x}| == |b| - 1;
    }
  }

  lemma ClosedLevelIsFinal(g: Graph, d: seq<nat>, v: nat)
    requires WellFormed(g) && |d| == |g.base| && LevelClosed(g, d, v)
    requires forall t :: 0 <= t < |d| ==> g.base[t] <= d[t]
    ensures forall t :: 0 <= t < |d| && Inherited(g)[t] >= v ==> d[t] >= v
  {
    forall t | 0 <= t < |d| && Inherited(g)[t] >= v ensures d[t] >= v {
      var p := AttainingPath(g, t);
      LevelAlongPath(g, d, v, p);
    }
  }

  lemma {:induction false} LevelAlongPath(g: Graph, d: seq<nat>, v: nat, p: seq<nat>)
    requires |d| == |g.base| && LevelClosed(g, d, v) && Path(g, p) && d[p[0]] >= v
    ensures d[p[|p| - 1]] >= v
    decreases |p|
  {
    if |p| > 1 {
      LevelAlongPath(g, d, v, p[..|p| - 1]);
      assert Edge(g, p[|p| - 2], p[|p| - 1]);
    }
  }

  /** As many passes as there are tasks always suffice, deadlock cycles included. */
  lemma EnoughPasses(g: Graph, d: seq<nat>)
    requires WellFormed(g) && |d| == |g.base| && Progress(g, d, |g.base|)
    requires forall t :: 0 <= t < |d| ==> g.base[t] <= d[t] <= Inherited(g)[t]
    ensures d == Inherited(g)
  {
    forall t | 0 <= t < |d| ensures d[t] == Inherited(g)[t] {
      var v := Inherited(g)[t];
      assert LevelClosed(g, d, v);
      ClosedLevelIsFinal(g, d, v);
    }
  }

  /** A pass without a change has reached the fixed point: the early exit is never too soon. */
  lemma QuietPassIsFinal(g: Graph, d: seq<nat>)
    requires WellFormed(g) && PassDone(g, d, d)
    ensures d == Inherited(g)
  {
    InheritedIsLeast(g, d);
  }
}
