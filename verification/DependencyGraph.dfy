/**
  Dependency graphs of plugins: which plugins can be loaded at all, and in which order.
 */
module DependencyGraph {

  /** The dependencies of every node, and the nodes whose own dependencies have been resolved. */
  datatype Graph<T(==)> = Graph(deps: map<T, seq<T>>, ready: set<T>) {
    function Deps(s: T): seq<T> {
      if s in deps then deps[s] else []
    }
  }

  /** There is a path of k edges from s to t. */
  ghost predicate ReachesIn<T>(g: Graph<T>, s: T, t: T, k: nat) {
    if k == 0 then s == t else exists d <- g.Deps(s) :: ReachesIn(g, d, t, k - 1)
  }

  ghost predicate Reaches<T>(g: Graph<T>, s: T, t: T) {
    exists k: nat :: ReachesIn(g, s, t, k)
  }

  ghost predicate DependsOn<T>(g: Graph<T>, s: T, t: T) {
    exists k: nat :: k > 0 && ReachesIn(g, s, t, k)
  }

  /** Everything s depends on is ready, and every chain of dependencies has fewer than k nodes. */
  ghost predicate LoadableIn<T>(g: Graph<T>, s: T, k: nat) {
    k > 0 && s in g.ready && forall d <- g.Deps(s) :: LoadableIn(g, d, k - 1)
  }

  ghost predicate Loadable<T>(g: Graph<T>, s: T) {
    exists k: nat :: LoadableIn(g, s, k)
  }

  // ------------------------------------------------------------------ paths

  lemma {:induction false} PathThen<T>(g: Graph<T>, s: T, t: T, d: T, k: nat)
    requires ReachesIn(g, s, t, k) && d in g.Deps(t)
    ensures ReachesIn(g, s, d, k + 1)
  {
    if k == 0 {
      assert ReachesIn(g, d, d, 0);
    } else {
      var e :| e in g.Deps(s) && ReachesIn(g, e, t, k - 1);
      PathThen(g, e, t, d, k - 1);
    }
  }

  lemma DependsThen<T>(g: Graph<T>, s: T, t: T, d: T)
    requires DependsOn(g, s, t) && d in g.Deps(t)
    ensures DependsOn(g, s, d)
  {
    var k: nat :| k > 0 && ReachesIn(g, s, t, k);
    PathThen(g, s, t, d, k);
  }

  lemma DependsDirectly<T>(g: Graph<T>, s: T, d: T)
    requires d in g.Deps(s)
    ensures DependsOn(g, s, d)
  {
    assert ReachesIn(g, d, d, 0);
    assert ReachesIn(g, s, d, 1);
  }

  // ------------------------------------------------------------------ loadable nodes

  lemma {:induction false} LoadableMonotone<T>(g: Graph<T>, s: T, k: nat, l: nat)
    requires LoadableIn(g, s, k) && k <= l
    ensures LoadableIn(g, s, l)
  {
    forall d | d in g.Deps(s)
      ensures LoadableIn(g, d, l - 1)
    {
      LoadableMonotone(g, d, k - 1, l - 1);
    }
  }

  /** Along a path the depth decreases with every edge. */
  lemma {:induction false} LoadableAlong<T>(g: Graph<T>, s: T, t: T, k: nat, l: nat)
    requires LoadableIn(g, s, k) && ReachesIn(g, s, t, l)
    ensures l < k && LoadableIn(g, t, k - l)
  {
    if l > 0 {
      var d :| d in g.Deps(s) && ReachesIn(g, d, t, l - 1);
      LoadableAlong(g, d, t, k - 1, l - 1);
    }
  }

  lemma {:induction false} NoCycleBelow<T>(g: Graph<T>, s: T, k: nat)
    requires LoadableIn(g, s, k)
    ensures !DependsOn(g, s, s)
    decreases k
  {
    if DependsOn(g, s, s) {
      var l: nat :| l > 0 && ReachesIn(g, s, s, l);
      LoadableAlong(g, s, s, k, l);
      NoCycleBelow(g, s, k - l);
    }
  }

  lemma ReachesThrough<T>(g: Graph<T>, s: T, d: T, t: T)
    requires d in g.Deps(s) && Reaches(g, d, t)
    ensures Reaches(g, s, t)
  {
    var k: nat :| ReachesIn(g, d, t, k);
    assert ReachesIn(g, s, t, k + 1);
  }

  /** A node that is not loadable in k steps, above ready nodes only, starts a chain of k + 1 nodes. */
  lemma {:induction false} LongChain<T>(g: Graph<T>, s: T, k: nat) returns (p: seq<T>)
    requires !LoadableIn(g, s, k)
    requires forall t :: Reaches(g, s, t) ==> t in g.ready
    ensures |p| == k + 1 && p[0] == s
    ensures forall i :: 0 <= i < k ==> p[i + 1] in g.Deps(p[i])
    ensures forall i :: 0 <= i <= k ==> p[i] in g.ready && Reaches(g, s, p[i])
  {
    assert ReachesIn(g, s, s, 0);
    if k == 0 {
      p := [s];
    } else {
      var d :| d in g.Deps(s) && !LoadableIn(g, d, k - 1);
      forall t | Reaches(g, d, t)
        ensures t in g.ready && Reaches(g, s, t)
      {
        ReachesThrough(g, s, d, t);
      }
      var q := LongChain(g, d, k - 1);
      p := [s] + q;
    }
  }

  lemma {:induction false} ChainReaches<T>(g: Graph<T>, p: seq<T>, i: nat, j: nat)
    requires forall i :: 0 <= i < |p| - 1 ==> p[i + 1] in g.Deps(p[i])
    requires i <= j < |p|
    ensures ReachesIn(g, p[i], p[j], j - i)
    decreases j - i
  {
    if i < j {
      ChainReaches(g, p, i + 1, j);
      assert p[i + 1] in g.Deps(p[i]);
    }
  }

  /** More positions than values: some value is taken twice. */
  lemma {:induction false} Pigeonhole<T>(p: seq<T>, values: set<T>) returns (i: nat, j: nat)
    requires forall x :: x in p ==> x in values
    requires |p| > |values|
    ensures i < j < |p| && p[i] == p[j]
  {
    var last := p[|p| - 1];
    assert last in p;
    if k :| 0 <= k < |p| - 1 && p[k] == last {
      i, j := k, |p| - 1;
    } else {
      forall x | x in p[..|p| - 1]
        ensures x in values - {last}
      {
        assert x in p;
      }
      i, j := Pigeonhole(p[..|p| - 1], values - {last});
    }
  }

  /** A node can be loaded exactly when everything it reaches is ready and lies on no cycle. */
  lemma LoadableIff<T>(g: Graph<T>, s: T)
    ensures Loadable(g, s) <==> forall t :: Reaches(g, s, t) ==> t in g.ready && !DependsOn(g, t, t)
  {
    if Loadable(g, s) {
      var k: nat :| LoadableIn(g, s, k);
      forall t | Reaches(g, s, t)
        ensures t in g.ready && !DependsOn(g, t, t)
      {
        var l: nat :| ReachesIn(g, s, t, l);
        LoadableAlong(g, s, t, k, l);
        NoCycleBelow(g, t, k - l);
      }
    } else if forall t :: Reaches(g, s, t) ==> t in g.ready && !DependsOn(g, t, t) {
      var p := LongChain(g, s, |g.ready|);
      var i, j := Pigeonhole(p, g.ready);
      ChainReaches(g, p, i, j);
      assert DependsOn(g, p[i], p[i]);
      assert false;
    }
  }

  // ------------------------------------------------------------------ queues

  function Members<T(==)>(q: seq<T>): set<T> {
    set s | s in q
  }

  ghost predicate NoDuplicates<T>(q: seq<T>) {
    forall i, j :: 0 <= i < j < |q| ==> q[i] != q[j]
  }

  /** Dependencies stand before the nodes that need them. */
  ghost predicate DependenciesFirst<T>(g: Graph<T>, q: seq<T>) {
    forall i, d :: 0 <= i < |q| && d in g.Deps(q[i]) ==> d in q[..i]
  }

  ghost predicate LoadOrder<T>(g: Graph<T>, q: seq<T>) {
    NoDuplicates(q) && DependenciesFirst(g, q) && forall s :: s in q ==> Loadable(g, s)
  }

  lemma LoadOrderAppend<T>(g: Graph<T>, q: seq<T>, s: T)
    requires LoadOrder(g, q) && s !in q && Loadable(g, s)
    requires forall d :: d in g.Deps(s) ==> d in q
    ensures LoadOrder(g, q + [s])
  {
    var r := q + [s];
    forall i, d | 0 <= i < |r| && d in g.Deps(r[i])
      ensures d in r[..i]
    {
      if i < |q| {
        assert r[..i] == q[..i];
        assert r[i] == q[i];
      } else {
        assert r[..i] == q;
      }
    }
  }
}
