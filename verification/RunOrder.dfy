/**
  The calls of a whole run, a start followed by a stop, and what their order guarantees.
 */
module RunOrder {
  import opened DependencyGraph
  import opened LoadPhases

  /** The libraries that load, and the plugins that are initialised, for outcomes of the calls. */
  ghost function LoadedBy<T>(g: Graph<T>, q: seq<T>, succeeds: Call<T> -> bool): Phase<T> {
    Forward(g, q, Members(q), Load, succeeds)
  }

  ghost function InitializedBy<T>(g: Graph<T>, q: seq<T>, succeeds: Call<T> -> bool): Phase<T> {
    Forward(g, q, LoadedBy(g, q, succeeds).done, Initialize, succeeds)
  }

  /** The calls of a start with the queue q and a stop with the queue r. */
  ghost function RunCalls<T>(g: Graph<T>, q: seq<T>, r: seq<T>, succeeds: Call<T> -> bool): seq<Call<T>> {
    var up := InitializedBy(g, q, succeeds);
    Calls(Load, LoadedBy(g, q, succeeds).calls) + Calls(Initialize, up.calls)
    + Calls(ExtensionsInitialized, Backward(q, up.done))
    + (Calls(Shutdown, Chosen(r, up.done)) + Calls(Delete, Backward(r, up.done)))
  }

  /** Two queues of the same plugins, both in load order. */
  ghost predicate SameQueues<T>(g: Graph<T>, q: seq<T>, r: seq<T>) {
    && NoDuplicates(q) && DependenciesFirst(g, q) && NoDuplicates(r) && DependenciesFirst(g, r)
    && (forall s :: s in q ==> s in r) && (forall s :: s in r ==> s in q)
  }

  /** Every occurrence of b comes after an occurrence of a. */
  ghost predicate Precedes<C>(log: seq<C>, a: C, b: C) {
    forall j :: 0 <= j < |log| && log[j] == b ==> a in log[..j]
  }

  // ------------------------------------------------------------------ parts of the log

  lemma CallsMember<T>(kind: Kind, specs: seq<T>, c: Call<T>)
    ensures c in Calls(kind, specs) <==> c.kind == kind && c.spec in specs
  {
    if c.kind == kind && c.spec in specs {
      var i :| 0 <= i < |specs| && specs[i] == c.spec;
      assert Calls(kind, specs)[i] == c;
    }
  }

  /** Each call of the log belongs to the part of its kind. */
  lemma LogMember<T>(g: Graph<T>, q: seq<T>, r: seq<T>, succeeds: Call<T> -> bool, c: Call<T>)
    ensures var up := InitializedBy(g, q, succeeds);
            c in RunCalls(g, q, r, succeeds) <==>
            match c.kind
            case Load => c.spec in LoadedBy(g, q, succeeds).calls
            case Initialize => c.spec in up.calls
            case ExtensionsInitialized => c.spec in Backward(q, up.done)
            case Shutdown => c.spec in Chosen(r, up.done)
            case Delete => c.spec in Backward(r, up.done)
  {
    var up := InitializedBy(g, q, succeeds);
    CallsMember(Load, LoadedBy(g, q, succeeds).calls, c);
    CallsMember(Initialize, up.calls, c);
    CallsMember(ExtensionsInitialized, Backward(q, up.done), c);
    CallsMember(Shutdown, Chosen(r, up.done), c);
    CallsMember(Delete, Backward(r, up.done), c);
  }

  lemma PartOf<C>(before: seq<C>, part: seq<C>, after: seq<C>, j: nat)
    requires j < |before + part + after|
    requires (before + part + after)[j] !in before && (before + part + after)[j] !in after
    ensures |before| <= j < |before| + |part| && (before + part + after)[j] == part[j - |before|]
  {
  }

  /** The order within one part is the order in the log. */
  lemma PrecedesInPart<T>(log: seq<Call<T>>, before: seq<Call<T>>, kind: Kind, specs: seq<T>, after: seq<Call<T>>, d: T,
                          s: T)
    requires log == before + Calls(kind, specs) + after
    requires Call(kind, s) !in before && Call(kind, s) !in after
    requires Precedes(specs, d, s)
    ensures Precedes(log, Call(kind, d), Call(kind, s))
  {
    forall j | 0 <= j < |log| && log[j] == Call(kind, s)
      ensures Call(kind, d) in log[..j]
    {
      PartOf(before, Calls(kind, specs), after, j);
      var k := j - |before|;
      assert specs[k] == s;
      var i :| 0 <= i < k && specs[i] == d;
      assert log[..j][|before| + i] == Call(kind, d);
    }
  }

  lemma Regroup<C>(a: seq<C>, b: seq<C>, c: seq<C>, d: seq<C>)
    ensures a + b + c + d == a + b + (c + d)
    ensures a + b + (c + d) == (a + b + c) + d
  {
  }

  lemma DistinctParts<C>(p: seq<C>, q: seq<C>)
    requires NoDuplicates(p) && NoDuplicates(q) && forall c :: c in p ==> c !in q
    ensures NoDuplicates(p + q)
  {
    forall i, j | 0 <= i < j < |p + q|
      ensures (p + q)[i] != (p + q)[j]
    {
      if i < |p| <= j {
        assert p[i] in p && q[j - |p|] in q;
      }
    }
  }

  // ------------------------------------------------------------------ what a run guarantees

  /** The plugins a start brings to Running are those whose library loads, whose initialisation
      succeeds, and whose dependencies are all running. */
  lemma RunningIff<T>(g: Graph<T>, q: seq<T>, succeeds: Call<T> -> bool, i: nat)
    requires i < |q| && NoDuplicates(q) && DependenciesFirst(g, q)
    ensures q[i] in InitializedBy(g, q, succeeds).done <==>
            && succeeds(Call(Load, q[i])) && succeeds(Call(Initialize, q[i]))
            && forall d <- g.Deps(q[i]) :: d in InitializedBy(g, q, succeeds).done
  {
    var load, up := LoadedBy(g, q, succeeds), InitializedBy(g, q, succeeds);
    ForwardCalled(g, q, i, Members(q), Load, succeeds);
    ForwardCalled(g, q, i, load.done, Initialize, succeeds);
    ForwardDone(g, q, Members(q), Load, succeeds);
    ForwardDone(g, q, load.done, Initialize, succeeds);
    if forall d <- g.Deps(q[i]) :: d in up.done {
      forall d | d in g.Deps(q[i])
        ensures d in load.done
      {
        assert d in up.calls;
      }
    }
  }

  /** No plugin receives the same call twice. */
  lemma EachCallOnce<T>(g: Graph<T>, q: seq<T>, r: seq<T>, succeeds: Call<T> -> bool)
    requires SameQueues(g, q, r)
    ensures NoDuplicates(RunCalls(g, q, r, succeeds))
  {
    var load, up := LoadedBy(g, q, succeeds), InitializedBy(g, q, succeeds);
    ForwardOrder(g, q, Members(q), Load, succeeds);
    ForwardOrder(g, q, load.done, Initialize, succeeds);
    BackwardMembers(q, up.done);
    ChosenMembers(r, up.done);
    BackwardMembers(r, up.done);
    var a, b, c := Calls(Load, load.calls), Calls(Initialize, up.calls),
      Calls(ExtensionsInitialized, Backward(q, up.done));
    var d, e := Calls(Shutdown, Chosen(r, up.done)), Calls(Delete, Backward(r, up.done));
    DistinctParts(a, b);
    DistinctParts(a + b, c);
    DistinctParts(d, e);
    DistinctParts(a + b + c, d + e);
  }

  lemma {:induction false} PrecedesThen<C>(log: seq<C>, a: C, b: C, c: C)
    requires Precedes(log, a, b) && Precedes(log, b, c)
    ensures Precedes(log, a, c)
  {
    forall j | 0 <= j < |log| && log[j] == c
      ensures a in log[..j]
    {
      assert b in log[..j];
      var i :| 0 <= i < j && log[i] == b;
      assert a in log[..i];
      var k :| 0 <= k < i && log[k] == a;
      assert log[..j][k] == a;
    }
  }

  /** A plugin is initialised only after all it depends on, however indirectly, and these have succeeded. */
  lemma InitializedAfterDependencies<T>(g: Graph<T>, q: seq<T>, r: seq<T>, succeeds: Call<T> -> bool, s: T, d: T)
    requires SameQueues(g, q, r) && DependsOn(g, s, d) && Call(Initialize, s) in RunCalls(g, q, r, succeeds)
    ensures Precedes(RunCalls(g, q, r, succeeds), Call(Initialize, d), Call(Initialize, s))
    ensures succeeds(Call(Load, d)) && succeeds(Call(Initialize, d))
  {
    var k: nat :| k > 0 && ReachesIn(g, s, d, k);
    InitializedAfterReached(g, q, r, succeeds, s, d, k);
  }

  lemma {:induction false} InitializedAfterReached<T>(g: Graph<T>, q: seq<T>, r: seq<T>, succeeds: Call<T> -> bool,
                                                      s: T, d: T, k: nat)
    requires SameQueues(g, q, r) && k > 0 && ReachesIn(g, s, d, k)
    requires Call(Initialize, s) in RunCalls(g, q, r, succeeds)
    ensures Precedes(RunCalls(g, q, r, succeeds), Call(Initialize, d), Call(Initialize, s))
    ensures succeeds(Call(Load, d)) && succeeds(Call(Initialize, d))
  {
    var e :| e in g.Deps(s) && ReachesIn(g, e, d, k - 1);
    InitializedAfterDirect(g, q, r, succeeds, s, e);
    if k > 1 {
      InitializedAfterReached(g, q, r, succeeds, e, d, k - 1);
      PrecedesThen(RunCalls(g, q, r, succeeds), Call(Initialize, d), Call(Initialize, e), Call(Initialize, s));
    }
  }

  lemma InitializedAfterDirect<T>(g: Graph<T>, q: seq<T>, r: seq<T>, succeeds: Call<T> -> bool, s: T, d: T)
    requires SameQueues(g, q, r) && d in g.Deps(s) && Call(Initialize, s) in RunCalls(g, q, r, succeeds)
    ensures Precedes(RunCalls(g, q, r, succeeds), Call(Initialize, d), Call(Initialize, s))
    ensures succeeds(Call(Load, d)) && succeeds(Call(Initialize, d))
            && Call(Initialize, d) in RunCalls(g, q, r, succeeds)
  {
    var load, up := LoadedBy(g, q, succeeds), InitializedBy(g, q, succeeds);
    LogMember(g, q, r, succeeds, Call(Initialize, s));
    LogMember(g, q, r, succeeds, Call(Initialize, d));
    ForwardDone(g, q, load.done, Initialize, succeeds);
    ForwardDone(g, q, Members(q), Load, succeeds);
    ForwardOrder(g, q, load.done, Initialize, succeeds);
    assert d in up.done && d in up.calls && d in load.done;
    var before, after := Calls(Load, load.calls),
      Calls(ExtensionsInitialized, Backward(q, up.done))
        + (Calls(Shutdown, Chosen(r, up.done)) + Calls(Delete, Backward(r, up.done)));
    Regroup(before, Calls(Initialize, up.calls), Calls(ExtensionsInitialized, Backward(q, up.done)),
            Calls(Shutdown, Chosen(r, up.done)) + Calls(Delete, Backward(r, up.done)));
    CallsMember(Load, load.calls, Call(Initialize, s));
    NotAfter(up.done, q, r, Call(Initialize, s));
    PrecedesInPart(RunCalls(g, q, r, succeeds), before, Initialize, up.calls, after, d, s);
  }

  lemma NotAfter<T>(up: set<T>, q: seq<T>, r: seq<T>, c: Call<T>)
    requires c.kind == Initialize
    ensures c !in Calls(ExtensionsInitialized, Backward(q, up))
            + (Calls(Shutdown, Chosen(r, up)) + Calls(Delete, Backward(r, up)))
  {
  }

  /** When loading or initialising fails for a plugin, every plugin that depends on it, however
      indirectly, is never initialised, and never runs. */
  lemma FailureStopsDependents<T>(g: Graph<T>, q: seq<T>, r: seq<T>, succeeds: Call<T> -> bool, s: T, d: T, kind: Kind)
    requires SameQueues(g, q, r) && DependsOn(g, s, d)
    requires !(succeeds(Call(Load, d)) && succeeds(Call(Initialize, d)))
    requires kind in {Initialize, ExtensionsInitialized, Shutdown}
    ensures Call(kind, s) !in RunCalls(g, q, r, succeeds)
    ensures !succeeds(Call(Load, d)) ==> Call(Load, s) !in RunCalls(g, q, r, succeeds)
  {
    var load, up := LoadedBy(g, q, succeeds), InitializedBy(g, q, succeeds);
    var k: nat :| k > 0 && ReachesIn(g, s, d, k);
    ForwardDone(g, q, load.done, Initialize, succeeds);
    ForwardDone(g, q, Members(q), Load, succeeds);
    assert d in up.done ==> d in up.calls;
    FailureSpreads(g, q, load.done, Initialize, succeeds, s, d, k);
    if !succeeds(Call(Load, d)) {
      FailureSpreads(g, q, Members(q), Load, succeeds, s, d, k);
    }
    LogMember(g, q, r, succeeds, Call(kind, s));
    LogMember(g, q, r, succeeds, Call(Load, s));
    BackwardMembers(q, up.done);
    ChosenMembers(r, up.done);
  }

  /** extensionsInitialized runs on a plugin only after it has run on every plugin that depends on it, however
      indirectly, and has not failed. */
  lemma ExtensionsAfterDependents<T>(g: Graph<T>, q: seq<T>, r: seq<T>, succeeds: Call<T> -> bool, s: T, t: T)
    requires SameQueues(g, q, r) && DependsOn(g, t, s) && t in InitializedBy(g, q, succeeds).done
    ensures Precedes(RunCalls(g, q, r, succeeds), Call(ExtensionsInitialized, t), Call(ExtensionsInitialized, s))
  {
    var k: nat :| k > 0 && ReachesIn(g, t, s, k);
    ExtensionsAfterReached(g, q, r, succeeds, s, t, k);
  }

  lemma {:induction false} ExtensionsAfterReached<T>(g: Graph<T>, q: seq<T>, r: seq<T>, succeeds: Call<T> -> bool,
                                                     s: T, t: T, k: nat)
    requires SameQueues(g, q, r) && k > 0 && ReachesIn(g, t, s, k) && t in InitializedBy(g, q, succeeds).done
    ensures Precedes(RunCalls(g, q, r, succeeds), Call(ExtensionsInitialized, t), Call(ExtensionsInitialized, s))
  {
    var log, e := RunCalls(g, q, r, succeeds), ExtensionsInitialized;
    var d :| d in g.Deps(t) && ReachesIn(g, d, s, k - 1);
    ExtensionsAfterDirect(g, q, r, succeeds, d, t);
    if k > 1 {
      RunningClosed(g, q, succeeds, t, d);
      ExtensionsAfterReached(g, q, r, succeeds, s, d, k - 1);
      PrecedesThen(log, Call(e, t), Call(e, d), Call(e, s));
    }
  }

  /** What a running plugin depends on is running. */
  lemma RunningClosed<T>(g: Graph<T>, q: seq<T>, succeeds: Call<T> -> bool, s: T, d: T)
    requires NoDuplicates(q) && DependenciesFirst(g, q)
    requires s in InitializedBy(g, q, succeeds).done && d in g.Deps(s)
    ensures d in InitializedBy(g, q, succeeds).done
  {
    ForwardDone(g, q, LoadedBy(g, q, succeeds).done, Initialize, succeeds);
  }

  lemma ExtensionsAfterDirect<T>(g: Graph<T>, q: seq<T>, r: seq<T>, succeeds: Call<T> -> bool, s: T, t: T)
    requires SameQueues(g, q, r) && s in g.Deps(t) && t in InitializedBy(g, q, succeeds).done
    ensures Precedes(RunCalls(g, q, r, succeeds), Call(ExtensionsInitialized, t), Call(ExtensionsInitialized, s))
  {
    var load, up := LoadedBy(g, q, succeeds), InitializedBy(g, q, succeeds);
    var b := Backward(q, up.done);
    ForwardDone(g, q, load.done, Initialize, succeeds);
    DependentsBefore(g, q, up.done, s, t);
    var before := Calls(Load, load.calls) + Calls(Initialize, up.calls);
    var after := Calls(Shutdown, Chosen(r, up.done)) + Calls(Delete, Backward(r, up.done));
    PrecedesInPart(RunCalls(g, q, r, succeeds), before, ExtensionsInitialized, b, after, t, s);
  }

  /** In a backward pass a dependent comes before what it depends on. */
  lemma DependentsBefore<T>(g: Graph<T>, q: seq<T>, chosen: set<T>, s: T, t: T)
    requires NoDuplicates(q) && DependenciesFirst(g, q) && s in g.Deps(t) && t in q && t in chosen
    ensures Precedes(Backward(q, chosen), t, s)
  {
    var b := Backward(q, chosen);
    OrderIsNeverBackward(g, q);
    BackwardOrder(g, q, chosen);
    BackwardMembers(q, chosen);
    assert t in b;
    var i :| 0 <= i < |b| && b[i] == t;
    forall j | 0 <= j < |b| && b[j] == s
      ensures t in b[..j]
    {
      NotItsOwnDependency(g, q, t);
      assert i < j;
      assert b[..j][i] == t;
    }
  }

  lemma NotItsOwnDependency<T>(g: Graph<T>, q: seq<T>, t: T)
    requires NoDuplicates(q) && DependenciesFirst(g, q) && t in q
    ensures t !in g.Deps(t)
  {
    var i :| 0 <= i < |q| && q[i] == t;
    assert q[i] !in q[..i];
  }

  /** Exactly the running plugins are shut down and deleted. */
  lemma ShutdownIff<T>(g: Graph<T>, q: seq<T>, r: seq<T>, succeeds: Call<T> -> bool, s: T)
    requires SameQueues(g, q, r)
    ensures var log, up := RunCalls(g, q, r, succeeds), InitializedBy(g, q, succeeds).done;
            (Call(Shutdown, s) in log <==> s in up) && (Call(Delete, s) in log <==> s in up)
  {
    var load, up := LoadedBy(g, q, succeeds), InitializedBy(g, q, succeeds);
    ForwardDone(g, q, load.done, Initialize, succeeds);
    LogMember(g, q, r, succeeds, Call(Shutdown, s));
    LogMember(g, q, r, succeeds, Call(Delete, s));
    ChosenMembers(r, up.done);
    BackwardMembers(r, up.done);
  }

  /** A plugin is shut down after all it depends on, however indirectly, and deleted before that. */
  lemma ShutdownInOrder<T>(g: Graph<T>, q: seq<T>, r: seq<T>, succeeds: Call<T> -> bool, s: T, d: T)
    requires SameQueues(g, q, r) && s in InitializedBy(g, q, succeeds).done && DependsOn(g, s, d)
    ensures Precedes(RunCalls(g, q, r, succeeds), Call(Shutdown, d), Call(Shutdown, s))
    ensures Precedes(RunCalls(g, q, r, succeeds), Call(Delete, s), Call(Delete, d))
  {
    var k: nat :| k > 0 && ReachesIn(g, s, d, k);
    ShutdownReached(g, q, r, succeeds, s, d, k);
  }

  lemma {:induction false} ShutdownReached<T>(g: Graph<T>, q: seq<T>, r: seq<T>, succeeds: Call<T> -> bool, s: T, d: T,
                                              k: nat)
    requires SameQueues(g, q, r) && s in InitializedBy(g, q, succeeds).done && k > 0 && ReachesIn(g, s, d, k)
    ensures Precedes(RunCalls(g, q, r, succeeds), Call(Shutdown, d), Call(Shutdown, s))
    ensures Precedes(RunCalls(g, q, r, succeeds), Call(Delete, s), Call(Delete, d))
  {
    var log := RunCalls(g, q, r, succeeds);
    var e :| e in g.Deps(s) && ReachesIn(g, e, d, k - 1);
    ShutdownDirect(g, q, r, succeeds, s, e);
    if k > 1 {
      RunningClosed(g, q, succeeds, s, e);
      ShutdownReached(g, q, r, succeeds, e, d, k - 1);
      PrecedesThen(log, Call(Shutdown, d), Call(Shutdown, e), Call(Shutdown, s));
      PrecedesThen(log, Call(Delete, s), Call(Delete, e), Call(Delete, d));
    }
  }

  lemma ShutdownDirect<T>(g: Graph<T>, q: seq<T>, r: seq<T>, succeeds: Call<T> -> bool, s: T, d: T)
    requires SameQueues(g, q, r) && s in InitializedBy(g, q, succeeds).done && d in g.Deps(s)
    ensures Precedes(RunCalls(g, q, r, succeeds), Call(Shutdown, d), Call(Shutdown, s))
    ensures Precedes(RunCalls(g, q, r, succeeds), Call(Delete, s), Call(Delete, d))
  {
    var load, up := LoadedBy(g, q, succeeds), InitializedBy(g, q, succeeds);
    ForwardDone(g, q, load.done, Initialize, succeeds);
    ChosenOrder(g, r, up.done);
    DependentsBefore(g, r, up.done, d, s);
    StopOrder(Calls(Load, load.calls), Calls(Initialize, up.calls), Calls(ExtensionsInitialized, Backward(q, up.done)),
              Chosen(r, up.done), Backward(r, up.done), s, d);
  }

  lemma StopOrder<T>(a: seq<Call<T>>, b: seq<Call<T>>, c: seq<Call<T>>, down: seq<T>, gone: seq<T>, s: T, d: T)
    requires forall x :: x in a + b + c ==> x.kind != Shutdown && x.kind != Delete
    requires Precedes(down, d, s) && Precedes(gone, s, d)
    ensures var log := a + b + c + (Calls(Shutdown, down) + Calls(Delete, gone));
            Precedes(log, Call(Shutdown, d), Call(Shutdown, s)) && Precedes(log, Call(Delete, s), Call(Delete, d))
  {
    var before, x, y := a + b + c, Calls(Shutdown, down), Calls(Delete, gone);
    var log := before + (x + y);
    assert log == before + x + y && log == (before + x) + y + [];
    PrecedesInPart(log, before, Shutdown, down, y, d, s);
    PrecedesInPart(log, before + x, Delete, gone, [], s, d);
  }
}
