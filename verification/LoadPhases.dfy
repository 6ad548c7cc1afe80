/**
  The passes over the load queue, on values: which plugins are called in a pass, which of them
  succeed, and the order of the calls of a whole run.
 */
module LoadPhases {
  import opened DependencyGraph

  /** The calls a plugin can receive.  Load stands for loading its library. */
  datatype Kind = Load | Initialize | ExtensionsInitialized | Shutdown | Delete

  datatype Call<T> = Call(kind: Kind, spec: T)

  datatype Phase<T> = Phase(done: set<T>, calls: seq<T>)

  /** A forward pass: a plugin without an error is called when all its dependencies have come
      through this pass, and comes through it when the call succeeds. */
  ghost function Forward<T>(g: Graph<T>, q: seq<T>, enabled: set<T>, kind: Kind, succeeds: Call<T> -> bool): Phase<T> {
    if q == [] then Phase({}, [])
    else
      var p, s := Forward(g, q[..|q| - 1], enabled, kind, succeeds), q[|q| - 1];
      if s in enabled && forall d <- g.Deps(s) :: d in p.done then
        Phase(if succeeds(Call(kind, s)) then p.done + {s} else p.done, p.calls + [s])
      else p
  }

  /** The elements of q in the set, in the order of q. */
  ghost function Chosen<T>(q: seq<T>, chosen: set<T>): seq<T> {
    if q == [] then []
    else if q[|q| - 1] in chosen then Chosen(q[..|q| - 1], chosen) + [q[|q| - 1]]
    else Chosen(q[..|q| - 1], chosen)
  }

  /** ... and in the opposite order. */
  ghost function Backward<T>(q: seq<T>, chosen: set<T>): seq<T> {
    if q == [] then []
    else if q[0] in chosen then Backward(q[1..], chosen) + [q[0]]
    else Backward(q[1..], chosen)
  }

  ghost function Calls<T>(kind: Kind, specs: seq<T>): (c: seq<Call<T>>)
    ensures |c| == |specs| && forall i :: 0 <= i < |c| ==> c[i] == Call(kind, specs[i])
  {
    seq(|specs|, i requires 0 <= i < |specs| => Call(kind, specs[i]))
  }

  // ------------------------------------------------------------------ one pass

  lemma {:induction false} ForwardDone<T>(g: Graph<T>, q: seq<T>, enabled: set<T>, kind: Kind,
                                          succeeds: Call<T> -> bool)
    ensures var p := Forward(g, q, enabled, kind, succeeds);
            && (forall s :: s in p.done ==> s in p.calls && succeeds(Call(kind, s)))
            && (forall s :: s in p.calls && succeeds(Call(kind, s)) ==> s in p.done)
            && (forall s :: s in p.calls ==> s in q && s in enabled)
            && (forall s, d :: s in p.calls && d in g.Deps(s) ==> d in p.done)
  {
    if q != [] {
      ForwardDone(g, q[..|q| - 1], enabled, kind, succeeds);
    }
  }

  /** What the pass does with a plugin depends only on the plugins before it. */
  lemma {:induction false} ForwardPrefix<T>(g: Graph<T>, q: seq<T>, i: nat, enabled: set<T>, kind: Kind,
                                            succeeds: Call<T> -> bool)
    requires i <= |q|
    ensures var p, r := Forward(g, q[..i], enabled, kind, succeeds), Forward(g, q, enabled, kind, succeeds);
            p.calls <= r.calls && p.done <= r.done && forall s :: s in r.calls ==> s in p.calls || s in q[i..]
  {
    if i < |q| {
      ForwardPrefix(g, q[..|q| - 1], i, enabled, kind, succeeds);
      assert q[..|q| - 1][..i] == q[..i];
      assert q[..|q| - 1][i..] + [q[|q| - 1]] == q[i..];
    } else {
      assert q[..i] == q;
    }
  }

  /** The pass one plugin further. */
  lemma ForwardStep<T>(g: Graph<T>, q: seq<T>, i: nat, enabled: set<T>, kind: Kind, succeeds: Call<T> -> bool)
    requires i < |q|
    ensures var p, r, s :=
            Forward(g, q[..i], enabled, kind, succeeds), Forward(g, q[..i + 1], enabled, kind, succeeds), q[i];
            r == if s in enabled && forall d <- g.Deps(s) :: d in p.done then
                   Phase(if succeeds(Call(kind, s)) then p.done + {s} else p.done, p.calls + [s])
                 else p
  {
    var r := q[..i + 1];
    assert r[..|r| - 1] == q[..i] && r[|r| - 1] == q[i];
  }

  /** What came through the pass of the plugins standing before position i came through before it. */
  lemma DoneBefore<T>(g: Graph<T>, q: seq<T>, i: nat, enabled: set<T>, kind: Kind, succeeds: Call<T> -> bool, d: T)
    requires i <= |q| && NoDuplicates(q) && d in q[..i]
    ensures d in Forward(g, q[..i], enabled, kind, succeeds).done <==> d in Forward(g, q, enabled, kind, succeeds).done
  {
    ForwardDone(g, q, enabled, kind, succeeds);
    ForwardDone(g, q[..i], enabled, kind, succeeds);
    ForwardPrefix(g, q, i, enabled, kind, succeeds);
    NotLater(q, i, d);
  }

  /** s is called exactly when it has no error and its dependencies have come through the pass. */
  lemma ForwardCalled<T>(g: Graph<T>, q: seq<T>, i: nat, enabled: set<T>, kind: Kind, succeeds: Call<T> -> bool)
    requires i < |q| && NoDuplicates(q) && DependenciesFirst(g, q)
    ensures var r := Forward(g, q, enabled, kind, succeeds);
            q[i] in r.calls <==> q[i] in enabled && forall d <- g.Deps(q[i]) :: d in r.done
  {
    ForwardDone(g, q, enabled, kind, succeeds);
    forall d | d in g.Deps(q[i])
      ensures d in Forward(g, q[..i], enabled, kind, succeeds).done <==>
              d in Forward(g, q, enabled, kind, succeeds).done
    {
      DoneBefore(g, q, i, enabled, kind, succeeds, d);
    }
    ForwardStep(g, q, i, enabled, kind, succeeds);
    ForwardPrefix(g, q, i + 1, enabled, kind, succeeds);
    var c, r := Forward(g, q[..i + 1], enabled, kind, succeeds).calls, Forward(g, q, enabled, kind, succeeds).calls;
    if q[i] in c {
      Prefix(c, r, q[i]);
    }
  }

  lemma NotLater<T>(q: seq<T>, i: nat, d: T)
    requires NoDuplicates(q) && i <= |q| && d in q[..i]
    ensures d !in q[i..]
  {
    var j :| 0 <= j < i && q[j] == d;
  }

  lemma Prefix<T>(p: seq<T>, q: seq<T>, s: T)
    requires p <= q && s in p
    ensures s in q
  {
    var i :| 0 <= i < |p| && p[i] == s;
    assert q[i] == s;
  }

  /** No plugin is called twice in a pass, and the calls follow the order of the queue. */
  lemma {:induction false} ForwardOrder<T>(g: Graph<T>, q: seq<T>, enabled: set<T>, kind: Kind,
                                           succeeds: Call<T> -> bool)
    requires NoDuplicates(q) && DependenciesFirst(g, q)
    ensures var p := Forward(g, q, enabled, kind, succeeds); NoDuplicates(p.calls) && DependenciesFirst(g, p.calls)
  {
    if q != [] {
      var r, s := q[..|q| - 1], q[|q| - 1];
      forall i, d | 0 <= i < |r| && d in g.Deps(r[i])
        ensures d in r[..i]
      {
        assert r[..i] == q[..i];
      }
      ForwardOrder(g, r, enabled, kind, succeeds);
      ForwardDone(g, r, enabled, kind, succeeds);
      var p, c := Forward(g, r, enabled, kind, succeeds).calls, Forward(g, q, enabled, kind, succeeds).calls;
      if c != p {
        assert s !in r;
        forall i, d | 0 <= i < |c| && d in g.Deps(c[i])
          ensures d in c[..i]
        {
          assert c[..i] == p[..i];
        }
      }
    }
  }

  /** A failure spreads to everything that depends on the plugin. */
  lemma {:induction false} FailureSpreads<T>(g: Graph<T>, q: seq<T>, enabled: set<T>, kind: Kind,
                                             succeeds: Call<T> -> bool, s: T, t: T, k: nat)
    requires ReachesIn(g, s, t, k) && t !in Forward(g, q, enabled, kind, succeeds).done
    ensures s !in Forward(g, q, enabled, kind, succeeds).done
    ensures k > 0 ==> s !in Forward(g, q, enabled, kind, succeeds).calls
  {
    if k > 0 {
      var d :| d in g.Deps(s) && ReachesIn(g, d, t, k - 1);
      FailureSpreads(g, q, enabled, kind, succeeds, d, t, k - 1);
      ForwardDone(g, q, enabled, kind, succeeds);
    }
  }

  // ------------------------------------------------------------------ chosen elements

  lemma {:induction false} ChosenMembers<T>(q: seq<T>, chosen: set<T>)
    ensures forall s :: s in Chosen(q, chosen) <==> s in q && s in chosen
    ensures NoDuplicates(q) ==> NoDuplicates(Chosen(q, chosen))
  {
    if q != [] {
      ChosenMembers(q[..|q| - 1], chosen);
    }
  }

  /** Choosing a set that is closed under dependencies keeps the dependencies first. */
  lemma {:induction false} ChosenOrder<T>(g: Graph<T>, q: seq<T>, chosen: set<T>)
    requires DependenciesFirst(g, q)
    requires forall s, d :: s in chosen && d in g.Deps(s) ==> d in chosen
    ensures DependenciesFirst(g, Chosen(q, chosen))
  {
    if q != [] {
      var r, s := q[..|q| - 1], q[|q| - 1];
      forall i, d | 0 <= i < |r| && d in g.Deps(r[i])
        ensures d in r[..i]
      {
        assert r[..i] == q[..i];
      }
      ChosenOrder(g, r, chosen);
      ChosenMembers(r, chosen);
      var p, c := Chosen(r, chosen), Chosen(q, chosen);
      forall i, d | 0 <= i < |c| && d in g.Deps(c[i])
        ensures d in c[..i]
      {
        assert c[..i] == if i < |p| then p[..i] else p;
      }
    }
  }

  lemma {:induction false} BackwardMembers<T>(q: seq<T>, chosen: set<T>)
    ensures forall s :: s in Backward(q, chosen) <==> s in q && s in chosen
    ensures NoDuplicates(q) ==> NoDuplicates(Backward(q, chosen))
  {
    if q != [] {
      BackwardMembers(q[1..], chosen);
    }
  }

  lemma BackwardMember<T>(q: seq<T>, chosen: set<T>, i: nat)
    requires i < |Backward(q, chosen)|
    ensures Backward(q, chosen)[i] in q && Backward(q, chosen)[i] in chosen
  {
    BackwardMembers(q, chosen);
    var s := Backward(q, chosen)[i];
    assert s in Backward(q, chosen);
  }

  /** No element depends on a later one. */
  ghost predicate NeverBackward<T>(g: Graph<T>, q: seq<T>) {
    forall i, j :: 0 <= i < j < |q| ==> q[j] !in g.Deps(q[i])
  }

  /** No element depends on an earlier one. */
  ghost predicate NeverForward<T>(g: Graph<T>, q: seq<T>) {
    forall i, j :: 0 <= i < j < |q| ==> q[i] !in g.Deps(q[j])
  }

  lemma OrderIsNeverBackward<T>(g: Graph<T>, q: seq<T>)
    requires NoDuplicates(q) && DependenciesFirst(g, q)
    ensures NeverBackward(g, q)
  {
    forall i, j | 0 <= i < j < |q|
      ensures q[j] !in g.Deps(q[i])
    {
      assert q[j] !in q[..i];
    }
  }

  lemma {:induction false} BackwardOrder<T>(g: Graph<T>, q: seq<T>, chosen: set<T>)
    requires NeverBackward(g, q)
    ensures NeverForward(g, Backward(q, chosen))
  {
    if q != [] {
      BackwardOrder(g, q[1..], chosen);
      BackwardMembers(q[1..], chosen);
      var b, c := Backward(q, chosen), Backward(q[1..], chosen);
      forall i, j | 0 <= i < j < |b|
        ensures b[i] !in g.Deps(b[j])
      {
        if j == |c| {
          BackwardMember(q[1..], chosen, i);
          var k :| 0 <= k < |q| - 1 && q[1..][k] == c[i];
          assert q[k + 1] == b[i] && b[j] == q[0];
        }
      }
    }
  }

  /** A pass in which nothing can fail comes through for every enabled plugin. */
  lemma {:induction false} ForwardAll<T>(g: Graph<T>, q: seq<T>, enabled: set<T>, kind: Kind, succeeds: Call<T> -> bool)
    requires DependenciesFirst(g, q)
    requires forall s :: s in enabled ==> succeeds(Call(kind, s))
    requires forall s, d :: s in enabled && d in g.Deps(s) ==> d in enabled
    ensures Forward(g, q, enabled, kind, succeeds).calls == Chosen(q, enabled)
    ensures forall s :: s in Forward(g, q, enabled, kind, succeeds).done <==> s in q && s in enabled
  {
    if q != [] {
      var r, s := q[..|q| - 1], q[|q| - 1];
      assert q == r + [s];
      forall i, d | 0 <= i < |r| && d in g.Deps(r[i])
        ensures d in r[..i]
      {
        assert r[..i] == q[..i];
      }
      ForwardAll(g, r, enabled, kind, succeeds);
      var p := Forward(g, r, enabled, kind, succeeds);
      if s in enabled {
        forall d | d in g.Deps(s)
          ensures d in p.done
        {
          assert q[|q| - 1] == s && q[..|q| - 1] == r;
        }
      }
    }
  }
}
