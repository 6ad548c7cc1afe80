/**
  The order in which plugins are loaded: a depth-first walk over the dependencies that appends a
  plugin after its dependencies and marks plugins that cannot be loaded.
 */
module LoadQueue {
  import opened DependencyGraph
  import opened PluginSpecs

  ghost predicate Ready(s: Spec)
    reads s
  {
    s.state != Invalid && s.state != Read
  }

  /** The dependency graph of the plugins as their fields describe it. */
  ghost function GraphOf(world: set<Spec>): (g: Graph<Spec>)
    reads world
    ensures g.deps.Keys == world
    ensures forall s :: s in world ==> g.Deps(s) == s.dependencySpecs && (s in g.ready <==> Ready(s))
    ensures g.ready <= world
  {
    Graph(map s: Spec | s in world :: s.dependencySpecs, set s | s in world && Ready(s))
  }

  /** Everything a resolved plugin depends on is one of the plugins. */
  ghost predicate Closed(world: set<Spec>)
    reads world
  {
    forall s, d :: s in world && Ready(s) && d in s.dependencySpecs ==> d in world
  }

  /** The nodes of the walk that are not finished lead to s: this is what the circularity list
      holds besides finished nodes, although nothing is ever removed from it. */
  ghost predicate OpenNodesLeadTo(g: Graph<Spec>, queue: seq<Spec>, circularityCheckQueue: seq<Spec>, s: Spec) {
    forall c :: c in circularityCheckQueue ==> c in queue || DependsOn(g, c, s)
  }

  /** The same for the next dependency d of s, once s itself is on the list. */
  lemma OpenNodesStep(g: Graph<Spec>, queue: seq<Spec>, circ: seq<Spec>, s: Spec, queue': seq<Spec>, circ': seq<Spec>,
                      d: Spec)
    requires forall c :: c in circ ==> c == s || c in queue || DependsOn(g, c, s)
    requires d in g.Deps(s)
    requires forall c :: c in queue ==> c in queue'
    requires forall c :: c in circ' ==> c in circ || c in queue'
    ensures OpenNodesLeadTo(g, queue', circ', d)
  {
    forall c | c in circ'
      ensures c in queue' || DependsOn(g, c, d)
    {
      if c == s {
        DependsDirectly(g, s, d);
      } else if c in circ && c !in queue {
        DependsThen(g, c, s, d);
      }
    }
  }

  lemma OpenSpecs(g: Graph<Spec>, queue: seq<Spec>, circ: seq<Spec>, s: Spec)
    requires OpenNodesLeadTo(g, queue, circ, s)
    ensures forall c :: c in circ + [s] ==> c == s || c in queue || DependsOn(g, c, s)
  {
  }

  ghost predicate AllLoadable(g: Graph<Spec>, specs: seq<Spec>) {
    forall s :: s in specs ==> Loadable(g, s)
  }

  lemma {:induction false} CommonDepth(g: Graph<Spec>, specs: seq<Spec>) returns (k: nat)
    requires AllLoadable(g, specs)
    ensures forall s :: s in specs ==> LoadableIn(g, s, k)
  {
    if specs == [] {
      k := 0;
    } else {
      var l := CommonDepth(g, specs[1..]);
      assert Loadable(g, specs[0]);
      var m: nat :| LoadableIn(g, specs[0], m);
      k := if l < m then m else l;
      forall s | s in specs
        ensures LoadableIn(g, s, k)
      {
        LoadableMonotone(g, s, if s == specs[0] then m else l, k);
      }
    }
  }

  lemma LoadableByDependencies(g: Graph<Spec>, s: Spec)
    ensures Loadable(g, s) <==> s in g.ready && AllLoadable(g, g.Deps(s))
  {
    if Loadable(g, s) {
      var k: nat :| LoadableIn(g, s, k);
      forall d | d in g.Deps(s)
        ensures Loadable(g, d)
      {
        assert LoadableIn(g, d, k - 1);
      }
    } else if s in g.ready && AllLoadable(g, g.Deps(s)) {
      var k := CommonDepth(g, g.Deps(s));
      assert LoadableIn(g, s, k + 1);
    }
  }

  lemma OnCycle(g: Graph<Spec>, s: Spec)
    requires DependsOn(g, s, s)
    ensures !Loadable(g, s)
  {
    if Loadable(g, s) {
      var k: nat :| LoadableIn(g, s, k);
      NoCycleBelow(g, s, k);
    }
  }

  /** Errors are only added, and only to plugins that cannot be loaded. */
  twostate predicate OnlyUnloadableFail(g: Graph<Spec>, world: set<Spec>)
    reads world
  {
    forall s :: s in world ==> (old(s.hasError) ==> s.hasError) && (s.hasError && !old(s.hasError) ==> !Loadable(g, s))
  }

  lemma PrefixMembers(p: seq<Spec>, q: seq<Spec>)
    requires p <= q
    ensures forall c :: c in p ==> c in q
    ensures Members(p) <= Members(q)
  {
    forall c | c in p
      ensures c in q
    {
      var i :| 0 <= i < |p| && p[i] == c;
      assert q[i] == c;
    }
  }

  /** Queue and circularity list only grow, by plugins, and nothing that was on the list before is queued. */
  ghost predicate Grown(world: set<Spec>, q: seq<Spec>, circ: seq<Spec>, q': seq<Spec>, circ': seq<Spec>) {
    && q <= q' && circ <= circ'
    && (forall s :: s in q' ==> s in q || s in world)
    && (forall c :: c in circ' ==> c in world)
    && (forall c :: c in circ && c in q' ==> c in q)
  }

  lemma GrownThen(world: set<Spec>, q: seq<Spec>, circ: seq<Spec>, q1: seq<Spec>, circ1: seq<Spec>, q2: seq<Spec>,
                  circ2: seq<Spec>)
    requires Grown(world, q, circ, q1, circ1) && Grown(world, q1, circ1, q2, circ2)
    ensures Grown(world, q, circ, q2, circ2)
  {
    PrefixMembers(circ, circ1);
  }

  /** An error of a plugin leaves the graph as it is. */
  method Fail(spec: Spec, ghost world: set<Spec>, ghost g: Graph<Spec>)
    requires spec in world && Closed(world) && g == GraphOf(world)
    modifies spec`hasError
    ensures spec.hasError && g == GraphOf(world) && Closed(world)
  {
    spec.hasError := true;
  }

  /** Append spec and what it depends on to the queue; false if that is not possible. */
  method LoadQueueFrom(spec: Spec, queue: seq<Spec>, circularityCheckQueue: seq<Spec>,
                       ghost world: set<Spec>, ghost g: Graph<Spec>)
    returns (ok: bool, queue': seq<Spec>, circularityCheckQueue': seq<Spec>)
    requires spec in world && Closed(world) && g == GraphOf(world)
    requires LoadOrder(g, queue) && OpenNodesLeadTo(g, queue, circularityCheckQueue, spec)
    requires forall c :: c in circularityCheckQueue ==> c in world
    modifies world`hasError
    ensures ok <==> Loadable(g, spec)
    ensures !ok ==> spec.hasError
    ensures LoadOrder(g, queue') && Grown(world, queue, circularityCheckQueue, queue', circularityCheckQueue')
    ensures ok ==> spec in queue'
    ensures ok ==> forall c :: c in circularityCheckQueue' ==> c in circularityCheckQueue || c in queue'
    ensures OnlyUnloadableFail(g, world) && g == GraphOf(world) && Closed(world)
    decreases world - Members(circularityCheckQueue), 0
  {
    if spec in queue {
      return true, queue, circularityCheckQueue;
    }
    if spec in circularityCheckQueue {
      OnCycle(g, spec);
      Fail(spec, world, g);
      return false, queue, circularityCheckQueue;
    }
    queue', circularityCheckQueue' := queue, circularityCheckQueue + [spec];
    LoadableByDependencies(g, spec);
    if spec.state == Invalid || spec.state == Read {
      Fail(spec, world, g);
      return false, queue', circularityCheckQueue';
    }
    OpenSpecs(g, queue, circularityCheckQueue, spec);
    assert spec in world - Members(circularityCheckQueue) && spec !in world - Members(circularityCheckQueue + [spec]);
    ok, queue', circularityCheckQueue' := LoadDependencies(spec, queue, circularityCheckQueue + [spec], world, g);
    if !ok {
      Fail(spec, world, g);
      return;
    }
    LoadOrderAppend(g, queue', spec);
    queue' := queue' + [spec];
  }

  /** One dependency of spec, which has been on the circularity list since that was circ. */
  method LoadDependency(depSpec: Spec, queue: seq<Spec>, circularityCheckQueue: seq<Spec>,
                        ghost spec: Spec, ghost queue0: seq<Spec>, ghost circ: seq<Spec>,
                        ghost world: set<Spec>, ghost g: Graph<Spec>)
    returns (ok: bool, queue': seq<Spec>, circularityCheckQueue': seq<Spec>)
    requires depSpec in world && Closed(world) && g == GraphOf(world) && depSpec in g.Deps(spec)
    requires forall c :: c in circ ==> c == spec || c in queue0 || DependsOn(g, c, spec)
    requires LoadOrder(g, queue) && Grown(world, queue0, circ, queue, circularityCheckQueue)
    requires forall c :: c in circularityCheckQueue ==> c in circ || c in queue
    modifies world`hasError
    ensures ok <==> Loadable(g, depSpec)
    ensures LoadOrder(g, queue') && Grown(world, queue0, circ, queue', circularityCheckQueue')
    ensures queue <= queue' && (ok ==> depSpec in queue')
    ensures ok ==> forall c :: c in circularityCheckQueue' ==> c in circ || c in queue'
    ensures OnlyUnloadableFail(g, world) && g == GraphOf(world) && Closed(world)
    decreases world - Members(circ), 1
  {
    PrefixMembers(queue0, queue);
    PrefixMembers(circ, circularityCheckQueue);
    OpenNodesStep(g, queue0, circ, spec, queue, circularityCheckQueue, depSpec);
    ok, queue', circularityCheckQueue' := LoadQueueFrom(depSpec, queue, circularityCheckQueue, world, g);
    GrownThen(world, queue0, circ, queue, circularityCheckQueue, queue', circularityCheckQueue');
    PrefixMembers(queue, queue');
  }

  /** The loop over the dependencies of spec, which is on the circularity list already. */
  method LoadDependencies(spec: Spec, queue: seq<Spec>, circularityCheckQueue: seq<Spec>,
                          ghost world: set<Spec>, ghost g: Graph<Spec>)
    returns (ok: bool, queue': seq<Spec>, circularityCheckQueue': seq<Spec>)
    requires spec in world && spec !in queue && Closed(world) && g == GraphOf(world) && spec in g.ready
    requires LoadOrder(g, queue) && spec in circularityCheckQueue
    requires forall c :: c in circularityCheckQueue ==> c in world && (c == spec || c in queue || DependsOn(g, c, spec))
    modifies world`hasError
    ensures ok <==> AllLoadable(g, g.Deps(spec))
    ensures LoadOrder(g, queue') && Grown(world, queue, circularityCheckQueue, queue', circularityCheckQueue')
    ensures ok ==> forall d :: d in g.Deps(spec) ==> d in queue'
    ensures ok ==> forall c :: c in circularityCheckQueue' ==> c in circularityCheckQueue || c in queue'
    ensures OnlyUnloadableFail(g, world) && g == GraphOf(world) && Closed(world)
    decreases world - Members(circularityCheckQueue), 2
  {
    queue', circularityCheckQueue' := queue, circularityCheckQueue;
    for k := 0 to |spec.dependencySpecs|
      invariant GraphOf(world) == g && Closed(world)
      invariant LoadOrder(g, queue') && Grown(world, queue, circularityCheckQueue, queue', circularityCheckQueue')
      invariant forall c :: c in circularityCheckQueue' ==> c in circularityCheckQueue || c in queue'
      invariant forall j :: 0 <= j < k ==> spec.dependencySpecs[j] in queue' && Loadable(g, spec.dependencySpecs[j])
      invariant OnlyUnloadableFail(g, world)
    {
      ghost var q := queue';
      ok, queue', circularityCheckQueue' :=
        LoadDependency(spec.dependencySpecs[k], queue', circularityCheckQueue', spec, queue, circularityCheckQueue,
                       world, g);
      PrefixMembers(q, queue');
      if !ok {
        return;
      }
    }
    ok := true;
  }

  /** What the whole queue is: in load order, without duplicates, holding exactly the plugins that can
      be loaded. */
  ghost predicate IsLoadQueue(g: Graph<Spec>, world: set<Spec>, queue: seq<Spec>) {
    && LoadOrder(g, queue)
    && (forall s :: s in queue ==> s in world)
    && (forall s :: s in world && Loadable(g, s) ==> s in queue)
  }

  /** The queue for all plugins. */
  method LoadQueueAll(pluginSpecs: seq<Spec>, ghost g: Graph<Spec>) returns (queue: seq<Spec>)
    requires Closed(Members(pluginSpecs)) && g == GraphOf(Members(pluginSpecs))
    modifies Members(pluginSpecs)`hasError
    ensures IsLoadQueue(g, Members(pluginSpecs), queue)
    ensures forall s :: s in pluginSpecs ==> s.hasError == (old(s.hasError) || !Loadable(g, s))
  {
    ghost var world := Members(pluginSpecs);
    queue := [];
    for k := 0 to |pluginSpecs|
      invariant GraphOf(world) == g && Closed(world)
      invariant LoadOrder(g, queue) && (forall s :: s in queue ==> s in world)
      invariant forall j :: 0 <= j < k ==> (pluginSpecs[j] in queue <==> Loadable(g, pluginSpecs[j]))
      invariant forall j :: 0 <= j < k && !Loadable(g, pluginSpecs[j]) ==> pluginSpecs[j].hasError
      invariant OnlyUnloadableFail(g, world)
    {
      var ok, circularityCheckQueue;
      ghost var before := queue;
      ok, queue, circularityCheckQueue := LoadQueueFrom(pluginSpecs[k], queue, [], world, g);
      PrefixMembers(before, queue);
    }
  }
}
