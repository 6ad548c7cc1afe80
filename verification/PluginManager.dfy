/**
  The life cycle of the plugins: the forward and backward passes of loading and of shutting down.
 */
module PluginManager {
  import opened DependencyGraph
  import opened PluginSpecs
  import opened LoadQueue
  import opened LoadPhases
  import opened RunOrder

  /** The fields of a plugin that the life cycle changes. */
  datatype Status = Status(state: State, hasError: bool, plugin: bool)

  ghost function StatusOf(s: Spec): Status
    reads s
  {
    Status(s.state, s.hasError, s.plugin)
  }

  function KindOf(destState: State): Kind
    requires destState in {Loaded, Initialized, Running, Stopped, Deleted}
  {
    match destState
    case Loaded => Load
    case Initialized => Initialize
    case Running => ExtensionsInitialized
    case Stopped => Shutdown
    case Deleted => Delete
  }

  /** The state from which a loading step starts. */
  function Before(destState: State): State {
    if destState == Loaded then Resolved else if destState == Initialized then Loaded else Initialized
  }

  class Manager {
    var pluginSpecs: seq<Spec>
    var log: seq<Call<Spec>>
    const succeeds: Call<Spec> -> bool

    constructor (pluginSpecs: seq<Spec>, succeeds: Call<Spec> -> bool)
      ensures this.pluginSpecs == pluginSpecs && this.succeeds == succeeds && log == []
    {
      this.pluginSpecs, this.succeeds, log := pluginSpecs, succeeds, [];
    }

    method CallPlugin(kind: Kind, spec: Spec) returns (ok: bool)
      modifies this`log
      ensures log == old(log) + [Call(kind, spec)] && ok == succeeds(Call(kind, spec))
    {
      log := log + [Call(kind, spec)];
      ok := succeeds(Call(kind, spec));
    }

    /** loadLibrary, initializePlugin and initializeExtensions, which differ in the call they make: the
        first two calls may fail, the last one cannot. */
    method Advance(spec: Spec, destState: State)
      requires destState in {Loaded, Initialized, Running}
      modifies this`log, spec`state, spec`hasError, spec`plugin
      ensures old(spec.hasError) || old(spec.state) == destState ==>
              StatusOf(spec) == old(StatusOf(spec)) && log == old(log)
      ensures !old(spec.hasError) && old(spec.state) != destState && !old(CanAdvance(spec, destState)) ==>
                StatusOf(spec) == old(StatusOf(spec)).(hasError := true) && log == old(log)
      ensures old(CanAdvance(spec, destState)) ==>
                && log == old(log) + [Call(KindOf(destState), spec)]
                && StatusOf(spec) == if destState == Running || succeeds(Call(KindOf(destState), spec))
                                     then Status(destState, false, true) else old(StatusOf(spec)).(hasError := true)
    {
      if spec.hasError {
        return;
      }
      if spec.state != Before(destState) {
        if spec.state == destState {
          return;
        }
        spec.hasError := true;
        return;
      }
      if destState != Loaded && !spec.plugin {
        spec.hasError := true;
        return;
      }
      var ok := CallPlugin(KindOf(destState), spec);
      if !ok && destState != Running {
        spec.hasError := true;
        return;
      }
      spec.plugin := true;
      spec.state := destState;
    }

    ghost predicate CanAdvance(spec: Spec, destState: State)
      reads spec
    {
      !spec.hasError && spec.state == Before(destState) && (destState == Loaded || spec.plugin)
    }

    /** stop */
    method Stop(spec: Spec)
      modifies this`log, spec`state
      ensures log == (if old(spec.plugin) then old(log) + [Call(Shutdown, spec)] else old(log))
      ensures spec.state == if old(spec.plugin) then Stopped else old(spec.state)
    {
      if !spec.plugin {
        return;
      }
      var _ := CallPlugin(Shutdown, spec);
      spec.state := Stopped;
    }

    /** kill */
    method Kill(spec: Spec)
      modifies this`log, spec`state, spec`plugin
      ensures log == (if old(spec.plugin) then old(log) + [Call(Delete, spec)] else old(log))
      ensures spec.state == if old(spec.plugin) then Deleted else old(spec.state)
      ensures !spec.plugin
    {
      if !spec.plugin {
        return;
      }
      var _ := CallPlugin(Delete, spec);
      spec.plugin := false;
      spec.state := Deleted;
    }

    ghost predicate DependenciesIn(spec: Spec, destState: State)
      reads spec, spec.dependencySpecs
    {
      forall d :: d in spec.dependencySpecs ==> d.state == destState
    }

    method LoadPlugin(spec: Spec, destState: State)
      requires destState in {Loaded, Initialized, Running, Stopped, Deleted}
      modifies this`log, spec`state, spec`hasError, spec`plugin
      ensures old(spec.hasError) ==> StatusOf(spec) == old(StatusOf(spec)) && log == old(log)
      ensures !old(spec.hasError) && destState in {Loaded, Initialized, Stopped}
              && !old(DependenciesIn(spec, destState)) ==>
                StatusOf(spec) == old(StatusOf(spec)).(hasError := true) && log == old(log)
      ensures destState in {Loaded, Initialized} && old(CanAdvance(spec, destState))
              && old(DependenciesIn(spec, destState)) ==>
                && log == old(log) + [Call(KindOf(destState), spec)]
                && StatusOf(spec) == if succeeds(Call(KindOf(destState), spec)) then Status(destState, false, true)
                                     else old(StatusOf(spec)).(hasError := true)
      ensures destState == Running && old(CanAdvance(spec, Running)) ==>
                log == old(log) + [Call(ExtensionsInitialized, spec)] && StatusOf(spec) == Status(Running, false, true)
      ensures !old(spec.hasError)
              && (destState == Running || (destState in {Loaded, Initialized} && old(DependenciesIn(spec, destState))))
                && !old(CanAdvance(spec, destState)) ==>
                && log == old(log)
                && StatusOf(spec) == if old(spec.state) == destState then old(StatusOf(spec))
                else old(StatusOf(spec)).(hasError := true)
      ensures !old(spec.hasError) && !old(spec.plugin)
              && (destState == Deleted || (destState == Stopped && old(DependenciesIn(spec, Stopped)))) ==>
                log == old(log) && StatusOf(spec) == old(StatusOf(spec))
      ensures destState == Stopped && !old(spec.hasError) && old(spec.plugin) && old(DependenciesIn(spec, Stopped)) ==>
                log == old(log) + [Call(Shutdown, spec)] && StatusOf(spec) == Status(Stopped, false, true)
      ensures destState == Deleted && !old(spec.hasError) && old(spec.plugin) ==>
                log == old(log) + [Call(Delete, spec)] && StatusOf(spec) == Status(Deleted, false, false)
    {
      if spec.hasError {
        return;
      }
      if destState == Running {
        Advance(spec, Running);
        return;
      } else if destState == Deleted {
        Kill(spec);
        return;
      }
      for k := 0 to |spec.dependencySpecs|
        invariant StatusOf(spec) == old(StatusOf(spec)) && log == old(log)
        invariant forall j :: 0 <= j < k ==> spec.dependencySpecs[j].state == destState
      {
        if spec.dependencySpecs[k].state != destState {
          spec.hasError := true;
          return;
        }
      }
      if destState == Stopped {
        Stop(spec);
      } else {
        Advance(spec, destState);
      }
    }

    /** One plugin of a forward pass; done are the plugins before it that came through. */
    method PassPlugin(spec: Spec, destState: State, ghost earlier: seq<Spec>, ghost done: set<Spec>,
                      ghost enabled: bool)
      requires destState in {Loaded, Initialized, Stopped}
      requires Passed(earlier, done, destState) && spec !in earlier
      requires forall d :: d in spec.dependencySpecs ==> d in earlier
      requires Waits(spec, enabled, destState)
      requires destState == Stopped && enabled ==> forall d :: d in spec.dependencySpecs ==> d in done
      modifies this`log, spec`state, spec`hasError, spec`plugin
      ensures var called := enabled && AllDone(spec.dependencySpecs, done);
              && log == (if called then old(log) + [Call(KindOf(destState), spec)] else old(log))
              && Came(spec, called && Succeeds(destState)(Call(KindOf(destState), spec)), destState)
    {
      if d :| d in spec.dependencySpecs && d !in done {
        assert d in earlier && Failed(d, destState);
      } else {
        assert DependenciesIn(spec, destState);
      }
      LoadPlugin(spec, destState);
    }

    /** A pass with the outcome p so far that has reached position i of the queue. */
    ghost predicate PassAt(queue: seq<Spec>, i: nat, destState: State, enabled: set<Spec>, before: seq<Call<Spec>>,
                           p: Phase<Spec>)
      requires destState in {Loaded, Initialized, Stopped} && i <= |queue|
      reads this, Members(queue)
    {
      && (forall k :: 0 <= k < i ==> Came(queue[k], queue[k] in p.done, destState))
      && (forall k :: i <= k < |queue| ==> Waits(queue[k], queue[k] in enabled, destState))
      && log == before + Calls(KindOf(destState), p.calls)
    }

    /** The next plugin; r is the outcome with it. */
    method PassNext(queue: seq<Spec>, i: nat, destState: State, ghost enabled: set<Spec>, ghost before: seq<Call<Spec>>,
                    ghost p: Phase<Spec>, ghost r: Phase<Spec>)
      requires destState in {Loaded, Initialized, Stopped} && i < |queue| && NoDuplicates(queue)
      requires PassAt(queue, i, destState, enabled, before, p)
      requires forall d :: d in queue[i].dependencySpecs ==> d in queue[..i]
      requires destState == Stopped && queue[i] in enabled ==> forall d :: d in queue[i].dependencySpecs ==> d in p.done
      requires Extends(queue[i], queue[..i], queue[i].dependencySpecs, enabled, KindOf(destState), Succeeds(destState),
                       p, r)
      modifies this`log, Members(queue)`state, Members(queue)`hasError, Members(queue)`plugin
      ensures PassAt(queue, i + 1, destState, enabled, before, r)
    {
      NotEarlier(queue, i);
      PassPlugin(queue[i], destState, queue[..i], p.done, queue[i] in enabled);
      LogExtends(before, queue[i], queue[i].dependencySpecs, enabled, KindOf(destState), p, r, log);
      forall k | 0 <= k < i
        ensures Came(queue[k], queue[k] in r.done, destState)
      {
        assert queue[k] in queue[..i] && queue[k] != queue[i];
      }
      forall k | i < k < |queue|
        ensures Waits(queue[k], queue[k] in enabled, destState)
      {
        assert queue[k] != queue[i];
      }
    }

    /** The next plugin, with the outcomes that Forward gives. */
    method PassStep(queue: seq<Spec>, i: nat, destState: State, ghost g: Graph<Spec>, ghost enabled: set<Spec>,
                    ghost before: seq<Call<Spec>>)
      requires destState in {Loaded, Initialized, Stopped} && i < |queue|
      requires NoDuplicates(queue) && DependenciesFirst(g, queue) && Edges(g, queue)
      requires destState == Stopped ==> ClosedUnder(g, enabled)
      requires PassAt(queue, i, destState, enabled, before,
                      Forward(g, queue[..i], enabled, KindOf(destState), Succeeds(destState)))
      modifies this`log, Members(queue)`state, Members(queue)`hasError, Members(queue)`plugin
      ensures Edges(g, queue)
      ensures PassAt(queue, i + 1, destState, enabled, before,
                     Forward(g, queue[..i + 1], enabled, KindOf(destState), Succeeds(destState)))
    {
      ghost var kind, ok := KindOf(destState), Succeeds(destState);
      StopIsNotBlocked(g, queue, i, enabled, kind, ok, destState);
      PassExtends(g, queue, i, enabled, kind, ok);
      PassNext(queue, i, destState, enabled, before,
               Forward(g, queue[..i], enabled, kind, ok), Forward(g, queue[..i + 1], enabled, kind, ok));
    }

    lemma PassBegins(queue: seq<Spec>, destState: State, g: Graph<Spec>, enabled: set<Spec>, kind: Kind,
                     ok: Call<Spec> -> bool)
      requires destState in {Loaded, Initialized, Stopped} && Waiting(queue, enabled, destState)
      ensures PassAt(queue, 0, destState, enabled, log, Forward(g, queue[..0], enabled, kind, ok))
    {
      assert queue[..0] == [];
    }

    lemma PassEnds(queue: seq<Spec>, destState: State, enabled: set<Spec>, before: seq<Call<Spec>>, p: Phase<Spec>)
      requires destState in {Loaded, Initialized, Stopped} && PassAt(queue, |queue|, destState, enabled, before, p)
      ensures Passed(queue, p.done, destState) && log == before + Calls(KindOf(destState), p.calls)
    {
    }

    /** One forward pass over the queue. */
    method ForwardPass(queue: seq<Spec>, destState: State, ghost g: Graph<Spec>, ghost enabled: set<Spec>)
      requires destState in {Loaded, Initialized, Stopped}
      requires NoDuplicates(queue) && DependenciesFirst(g, queue) && Edges(g, queue)
      requires Waiting(queue, enabled, destState)
      requires destState == Stopped ==> ClosedUnder(g, enabled)
      modifies this`log, Members(queue)`state, Members(queue)`hasError, Members(queue)`plugin
      ensures var p := Forward(g, queue, enabled, KindOf(destState), Succeeds(destState));
              && Passed(queue, p.done, destState)
              && log == old(log) + Calls(KindOf(destState), p.calls)
    {
      ghost var before, kind, ok := log, KindOf(destState), Succeeds(destState);
      PassBegins(queue, destState, g, enabled, kind, ok);
      for i := 0 to |queue|
        invariant Edges(g, queue)
        invariant PassAt(queue, i, destState, enabled, before, Forward(g, queue[..i], enabled, kind, ok))
      {
        PassStep(queue, i, destState, g, enabled, before);
      }
      assert queue[..|queue|] == queue;
      PassEnds(queue, destState, enabled, before, Forward(g, queue, enabled, kind, ok));
    }

    /** A plugin that a backward pass calls, or passes over. */
    ghost predicate BackwardWaits(s: Spec, chosen: bool, destState: State)
      reads s
    {
      if chosen then !s.hasError && s.plugin && (destState == Running ==> s.state == Initialized)
      else Failed(s, destState)
    }

    /** The first plugins of the queue, which a backward pass has not reached yet. */
    ghost predicate BackwardReady(queue: seq<Spec>, count: nat, chosen: set<Spec>, destState: State)
      requires count <= |queue|
      reads Members(queue)
    {
      forall k :: 0 <= k < count ==> BackwardWaits(queue[k], queue[k] in chosen, destState)
    }

    /** One plugin of a backward pass. */
    method BackwardPlugin(spec: Spec, destState: State, ghost chosen: bool)
      requires destState in {Running, Deleted} && BackwardWaits(spec, chosen, destState)
      modifies this`log, spec`state, spec`hasError, spec`plugin
      ensures log == old(log) + if chosen then [Call(KindOf(destState), spec)] else []
      ensures StatusOf(spec) == AfterBackward(chosen, destState, old(StatusOf(spec)))
    {
      LoadPlugin(spec, destState);
    }

    /** One backward pass over the queue. */
    method BackwardPass(queue: seq<Spec>, destState: State, ghost chosen: set<Spec>)
      requires destState in {Running, Deleted} && NoDuplicates(queue)
      requires BackwardReady(queue, |queue|, chosen, destState)
      modifies this`log, Members(queue)`state, Members(queue)`hasError, Members(queue)`plugin
      ensures log == old(log) + Calls(KindOf(destState), Backward(queue, chosen))
      ensures forall k :: 0 <= k < |queue| ==>
        StatusOf(queue[k]) == AfterBackward(queue[k] in chosen, destState, old(StatusOf(queue[k])))
      ensures Ended(queue, chosen, destState)
    {
      ghost var kind := KindOf(destState);
      var i := |queue|;
      while i > 0
        invariant 0 <= i <= |queue|
        invariant log == old(log) + Calls(kind, Backward(queue[i..], chosen))
        invariant BackwardReady(queue, i, chosen, destState)
        invariant forall k :: 0 <= k < i ==> StatusOf(queue[k]) == old(StatusOf(queue[k]))
        invariant forall k :: i <= k < |queue| ==>
          StatusOf(queue[k]) == AfterBackward(queue[k] in chosen, destState, old(StatusOf(queue[k])))
        invariant forall k :: i <= k < |queue| && queue[k] !in chosen ==> Failed(queue[k], destState)
      {
        i := i - 1;
        BackwardStep(queue, i, chosen, kind);
        BackwardPlugin(queue[i], destState, queue[i] in chosen);
      }
      assert queue[0..] == queue;
    }

    lemma BackwardStep(queue: seq<Spec>, i: nat, chosen: set<Spec>, kind: Kind)
      requires i < |queue|
      ensures Calls(kind, Backward(queue[i..], chosen)) ==
              Calls(kind, Backward(queue[i + 1..], chosen)) + if queue[i] in chosen then [Call(kind, queue[i])] else []
    {
      assert queue[i..][1..] == queue[i + 1..] && queue[i..][0] == queue[i];
    }

    /** The calls of a start. */
    ghost function StartCalls(g: Graph<Spec>, queue: seq<Spec>): seq<Call<Spec>> {
      Calls(Load, LoadedBy(g, queue, succeeds).calls) + Calls(Initialize, InitializedBy(g, queue, succeeds).calls)
      + Calls(ExtensionsInitialized, Backward(queue, InitializedBy(g, queue, succeeds).done))
    }

    /** The plugins as reading and resolving leaves them: resolved without error, or not resolved. */
    ghost predicate Fresh()
      reads this, Members(pluginSpecs)
    {
      && Closed(Members(pluginSpecs))
      && forall s :: s in pluginSpecs ==> if Ready(s) then s.state == Resolved && !s.hasError else true
    }

    /** After a start: the initialised plugins are running, the others of the queue have failed. */
    ghost predicate Started(g: Graph<Spec>, queue: seq<Spec>, running: set<Spec>)
      reads this, Members(pluginSpecs), Members(queue)
    {
      && Closed(Members(pluginSpecs)) && g == GraphOf(Members(pluginSpecs))
      && IsLoadQueue(g, Members(pluginSpecs), queue)
      && (forall s :: s in running ==> s in queue) && ClosedUnder(g, running)
      && Passed(queue, running, Running)
    }

    /** The forward passes of a start. */
    method LoadAndInitialize(queue: seq<Spec>, ghost g: Graph<Spec>, ghost loaded: Phase<Spec>, ghost up: Phase<Spec>)
      requires NoDuplicates(queue) && DependenciesFirst(g, queue) && Edges(g, queue)
      requires Waiting(queue, Members(queue), Loaded)
      requires loaded == LoadedBy(g, queue, succeeds) && up == InitializedBy(g, queue, succeeds)
      modifies this`log, Members(queue)`state, Members(queue)`hasError, Members(queue)`plugin
      ensures log == old(log) + Calls(Load, loaded.calls) + Calls(Initialize, up.calls)
      ensures Passed(queue, up.done, Initialized)
    {
      ForwardPass(queue, Loaded, g, Members(queue));
      PassedIsWaiting(queue, loaded.done);
      ForwardPass(queue, Initialized, g, loaded.done);
    }

    /** The three passes of a start. */
    method StartAll(queue: seq<Spec>, ghost g: Graph<Spec>)
      requires NoDuplicates(queue) && DependenciesFirst(g, queue) && Edges(g, queue)
      requires forall s :: s in queue ==> s.state == Resolved && !s.hasError
      modifies this`log, Members(queue)`state, Members(queue)`hasError, Members(queue)`plugin
      ensures log == old(log) + StartCalls(g, queue)
      ensures Passed(queue, InitializedBy(g, queue, succeeds).done, Running)
    {
      ghost var loaded, up := LoadedBy(g, queue, succeeds), InitializedBy(g, queue, succeeds);
      LoadAndInitialize(queue, g, loaded, up);
      RunAll(queue, up.done);
      Regrouped(old(log), Calls(Load, loaded.calls), Calls(Initialize, up.calls),
                Calls(ExtensionsInitialized, Backward(queue, up.done)));
    }

    /** The backward pass of a start. */
    method RunAll(queue: seq<Spec>, ghost up: set<Spec>)
      requires NoDuplicates(queue) && Passed(queue, up, Initialized)
      modifies this`log, Members(queue)`state, Members(queue)`hasError, Members(queue)`plugin
      ensures log == old(log) + Calls(ExtensionsInitialized, Backward(queue, up))
      ensures Passed(queue, up, Running)
    {
      PassedIsReady(queue, up, Running);
      BackwardPass(queue, Running, up);
      EndedIsPassed(queue, up);
    }

    lemma Regrouped<C>(a: seq<C>, b: seq<C>, c: seq<C>, d: seq<C>)
      ensures a + b + c + d == a + (b + c + d)
    {
    }

    lemma EndedIsPassed(queue: seq<Spec>, done: set<Spec>)
      requires Ended(queue, done, Running)
      ensures Passed(queue, done, Running)
    {
    }

    lemma PassedIsWaiting(queue: seq<Spec>, done: set<Spec>)
      requires Passed(queue, done, Loaded)
      ensures Waiting(queue, done, Initialized)
    {
    }

    lemma PassedIsReady(queue: seq<Spec>, done: set<Spec>, destState: State)
      requires destState in {Running, Deleted}
               && Passed(queue, done, if destState == Running then Initialized else Stopped)
      ensures BackwardReady(queue, |queue|, done, destState)
    {
    }

    method LoadPlugins() returns (ghost g: Graph<Spec>, ghost queue: seq<Spec>)
      requires Fresh()
      modifies this`log, Members(pluginSpecs)`state, Members(pluginSpecs)`hasError, Members(pluginSpecs)`plugin
      ensures g == old(GraphOf(Members(pluginSpecs)))
      ensures IsLoadQueue(g, Members(pluginSpecs), queue)
      ensures log == old(log) + StartCalls(g, queue)
      ensures Started(g, queue, InitializedBy(g, queue, succeeds).done)
      ensures forall s :: s in pluginSpecs && !Loadable(g, s) ==> s.hasError
    {
      g := GraphOf(Members(pluginSpecs));
      var order := OrderFresh(g);
      queue := order;
      StartAll(order, g);
      InitializedAreClosed(g, order);
      GraphUnchanged(Members(pluginSpecs), g);
    }

    /** The queue of fresh plugins: those in it can be started, and the others have an error. */
    method OrderFresh(ghost g: Graph<Spec>) returns (queue: seq<Spec>)
      requires Fresh() && g == GraphOf(Members(pluginSpecs))
      modifies Members(pluginSpecs)`hasError
      ensures IsLoadQueue(g, Members(pluginSpecs), queue) && Edges(g, queue)
      ensures forall s :: s in queue ==> s.state == Resolved && !s.hasError
      ensures forall s :: s in pluginSpecs && !Loadable(g, s) ==> s.hasError
    {
      queue := LoadQueueAll(pluginSpecs, g);
      QueuedAreReady(g, queue);
    }

    lemma QueuedAreReady(g: Graph<Spec>, queue: seq<Spec>)
      requires LoadOrder(g, queue)
      ensures forall s :: s in queue ==> s in g.ready
    {
      forall s | s in queue
        ensures s in g.ready
      {
        var k: nat :| LoadableIn(g, s, k);
      }
    }

    lemma InitializedAreClosed(g: Graph<Spec>, queue: seq<Spec>)
      ensures ClosedUnder(g, InitializedBy(g, queue, succeeds).done)
      ensures forall s :: s in InitializedBy(g, queue, succeeds).done ==> s in queue
    {
      var enabled := LoadedBy(g, queue, succeeds).done;
      var p := Forward(g, queue, enabled, Initialize, succeeds);
      ForwardDone(g, queue, enabled, Initialize, succeeds);
      forall s | s in p.done
        ensures s in queue && forall d :: d in g.Deps(s) ==> d in p.done
      {
        assert s in p.calls;
      }
    }

    /** A graph with the edges and the resolved plugins of the present state is the present graph. */
    lemma GraphUnchanged(world: set<Spec>, g: Graph<Spec>)
      requires g.deps.Keys == world && g.ready <= world
      requires forall s :: s in world ==> g.Deps(s) == s.dependencySpecs && (s in g.ready <==> Ready(s))
      ensures GraphOf(world) == g
    {
      var h := GraphOf(world);
      forall s | s in world
        ensures h.deps[s] == g.deps[s]
      {
        assert h.Deps(s) == g.Deps(s);
      }
      assert h.deps == g.deps && h.ready == g.ready;
    }

    /** The calls of a stop. */
    ghost function StopCalls(queue: seq<Spec>, running: set<Spec>): seq<Call<Spec>> {
      Calls(Shutdown, Chosen(queue, running)) + Calls(Delete, Backward(queue, running))
    }

    /** The two passes of a stop. */
    method StopQueue(queue: seq<Spec>, ghost g: Graph<Spec>, ghost running: set<Spec>)
      requires NoDuplicates(queue) && DependenciesFirst(g, queue) && Edges(g, queue)
      requires Passed(queue, running, Running) && ClosedUnder(g, running) && forall s :: s in running ==> s in queue
      modifies this`log, Members(queue)`state, Members(queue)`hasError, Members(queue)`plugin
      ensures log == old(log) + StopCalls(queue, running)
      ensures AllGone(queue, running)
    {
      ShutdownPass(queue, g, running);
      PassedIsReady(queue, running, Deleted);
      BackwardPass(queue, Deleted, running);
      EndedIsGone(queue, running);
      Joined(old(log), Calls(Shutdown, Chosen(queue, running)), Calls(Delete, Backward(queue, running)));
    }

    lemma Joined<C>(a: seq<C>, b: seq<C>, c: seq<C>)
      ensures a + b + c == a + (b + c)
    {
    }

    lemma EndedIsGone(queue: seq<Spec>, running: set<Spec>)
      requires Ended(queue, running, Deleted)
      ensures AllGone(queue, running)
    {
    }

    /** The forward pass of a stop. */
    method ShutdownPass(queue: seq<Spec>, ghost g: Graph<Spec>, ghost running: set<Spec>)
      requires NoDuplicates(queue) && DependenciesFirst(g, queue) && Edges(g, queue)
      requires Passed(queue, running, Running) && ClosedUnder(g, running) && forall s :: s in running ==> s in queue
      modifies this`log, Members(queue)`state, Members(queue)`hasError, Members(queue)`plugin
      ensures log == old(log) + Calls(Shutdown, Chosen(queue, running))
      ensures Passed(queue, running, Stopped)
    {
      RunningIsWaiting(queue, running);
      ForwardPass(queue, Stopped, g, running);
      ForwardAll(g, queue, running, Shutdown, Succeeds(Stopped));
    }

    lemma RunningIsWaiting(queue: seq<Spec>, running: set<Spec>)
      requires Passed(queue, running, Running)
      ensures Waiting(queue, running, Stopped)
    {
    }

    /** Stop what a start has brought up.  The queue is computed again; it holds the same plugins. */
    method StopAll(ghost g: Graph<Spec>, ghost started: seq<Spec>, ghost running: set<Spec>)
      returns (ghost queue: seq<Spec>)
      requires Started(g, started, running)
      modifies this`log, Members(pluginSpecs)`state, Members(pluginSpecs)`hasError, Members(pluginSpecs)`plugin
      ensures IsLoadQueue(g, Members(pluginSpecs), queue)
      ensures log == old(log) + StopCalls(queue, running)
      ensures forall s :: s in running ==> StatusOf(s) == Status(Deleted, false, false)
    {
      var order := LoadQueueAll(pluginSpecs, g);
      queue := order;
      forall k | 0 <= k < |order|
        ensures Came(order[k], order[k] in running, Running)
      {
        assert order[k] in order && order[k] in started;
        var j :| 0 <= j < |started| && started[j] == order[k];
      }
      StopQueue(order, g, running);
    }

    /** A start and a stop: the calls are those of RunOrder, whose lemmas say what that means. */
    method Run() returns (ghost g: Graph<Spec>, ghost queue: seq<Spec>, ghost stopQueue: seq<Spec>)
      requires Fresh() && log == []
      modifies this`log, Members(pluginSpecs)`state, Members(pluginSpecs)`hasError, Members(pluginSpecs)`plugin
      ensures g == old(GraphOf(Members(pluginSpecs)))
      ensures IsLoadQueue(g, Members(pluginSpecs), queue) && SameQueues(g, queue, stopQueue)
      ensures log == RunCalls(g, queue, stopQueue, succeeds)
    {
      g, queue := LoadPlugins();
      ghost var up := InitializedBy(g, queue, succeeds).done;
      stopQueue := StopAll(g, queue, up);
      CallsOfRun(g, queue, stopQueue);
    }

    lemma CallsOfRun(g: Graph<Spec>, queue: seq<Spec>, stopQueue: seq<Spec>)
      ensures [] + StartCalls(g, queue) + StopCalls(stopQueue, InitializedBy(g, queue, succeeds).done) ==
              RunCalls(g, queue, stopQueue, succeeds)
    {
    }

    /** Whether a call of the pass counts as a success; shutting down has no result. */
    ghost function Succeeds(destState: State): Call<Spec> -> bool {
      if destState == Stopped then c => true else succeeds
    }
  }

  ghost predicate ClosedUnder(g: Graph<Spec>, chosen: set<Spec>) {
    forall s, d :: s in chosen && d in g.Deps(s) ==> d in chosen
  }

  lemma NotEarlier(queue: seq<Spec>, i: nat)
    requires NoDuplicates(queue) && i < |queue|
    ensures queue[i] !in queue[..i] && queue[i] !in queue[i + 1..]
  {
  }

  lemma StopIsNotBlocked(g: Graph<Spec>, queue: seq<Spec>, i: nat, enabled: set<Spec>, kind: Kind,
                         ok: Call<Spec> -> bool, destState: State)
    requires i < |queue| && DependenciesFirst(g, queue)
    requires destState == Stopped ==> ClosedUnder(g, enabled) && forall c :: ok(c)
    ensures destState == Stopped && queue[i] in enabled ==>
              forall d :: d in g.Deps(queue[i]) ==> d in Forward(g, queue[..i], enabled, kind, ok).done
  {
    if destState == Stopped && queue[i] in enabled {
      var r := queue[..i];
      forall k, d | 0 <= k < |r| && d in g.Deps(r[k])
        ensures d in r[..k]
      {
        assert r[..k] == queue[..k];
      }
      ForwardAll(g, r, enabled, kind, ok);
    }
  }

  /** After a stop: the plugins that were running are deleted, the others have failed before. */
  ghost predicate AllGone(queue: seq<Spec>, running: set<Spec>)
    reads Members(queue)
  {
    forall s :: s in queue ==>
      if s in running then StatusOf(s) == Status(Deleted, false, false) else Failed(s, Deleted)
  }

  ghost predicate AllDone(deps: seq<Spec>, done: set<Spec>) {
    forall d :: d in deps ==> d in done
  }

  /** The outcome r is the outcome p and what happens to s, which has the dependencies deps. */
  ghost predicate Extends(s: Spec, earlier: seq<Spec>, deps: seq<Spec>, enabled: set<Spec>, kind: Kind,
                          ok: Call<Spec> -> bool, p: Phase<Spec>, r: Phase<Spec>) {
    var called := s in enabled && AllDone(deps, p.done);
    && Calls(kind, r.calls) == (if called then Calls(kind, p.calls) + [Call(kind, s)] else Calls(kind, p.calls))
    && (s in r.done <==> called && ok(Call(kind, s)))
    && (forall t :: t in earlier ==> (t in r.done <==> t in p.done))
  }

  lemma LogExtends(before: seq<Call<Spec>>, s: Spec, deps: seq<Spec>, enabled: set<Spec>, kind: Kind,
                   p: Phase<Spec>, r: Phase<Spec>, log: seq<Call<Spec>>)
    requires var called := s in enabled && AllDone(deps, p.done);
             && Calls(kind, r.calls) ==
               (if called then Calls(kind, p.calls) + [Call(kind, s)] else Calls(kind, p.calls))
             && log == if called then before + Calls(kind, p.calls) + [Call(kind, s)] else before + Calls(kind, p.calls)
    ensures log == before + Calls(kind, r.calls)
  {
  }

  lemma PassExtends(g: Graph<Spec>, queue: seq<Spec>, i: nat, enabled: set<Spec>, kind: Kind, ok: Call<Spec> -> bool)
    requires i < |queue| && NoDuplicates(queue)
    ensures Extends(queue[i], queue[..i], g.Deps(queue[i]), enabled, kind, ok,
                    Forward(g, queue[..i], enabled, kind, ok), Forward(g, queue[..i + 1], enabled, kind, ok))
  {
    ForwardStep(g, queue, i, enabled, kind, ok);
    ForwardDone(g, queue[..i], enabled, kind, ok);
    NotEarlier(queue, i);
  }

  /** The graph has the edges the plugins of the queue have. */
  ghost predicate Edges(g: Graph<Spec>, queue: seq<Spec>)
    reads Members(queue)
  {
    forall s :: s in queue ==> g.Deps(s) == s.dependencySpecs
  }

  /** A plugin that failed on the way to Initialized. */
  ghost predicate Failed(s: Spec, destState: State)
    reads s
  {
    s.hasError && s.state in {Resolved, Loaded} && s.state != destState
  }

  /** The state from which the plugins of a forward pass start. */
  function Start(destState: State): State {
    if destState == Stopped then Running else Before(destState)
  }

  ghost predicate Waits(s: Spec, enabled: bool, destState: State)
    reads s
  {
    if enabled then !s.hasError && s.state == Start(destState) && (destState == Loaded || s.plugin)
    else Failed(s, destState)
  }

  ghost predicate Came(s: Spec, done: bool, destState: State)
    reads s
  {
    if done then StatusOf(s) == Status(destState, false, true) else Failed(s, destState)
  }

  /** Plugins a forward pass has not reached yet. */
  ghost predicate Waiting(queue: seq<Spec>, enabled: set<Spec>, destState: State)
    reads Members(queue)
  {
    forall k :: 0 <= k < |queue| ==> Waits(queue[k], queue[k] in enabled, destState)
  }

  /** What a backward pass makes of a plugin it calls; the others stay as they are. */
  function AfterBackward(chosen: bool, destState: State, before: Status): Status {
    if chosen then Status(destState, false, destState == Running) else before
  }

  /** Plugins a backward pass is done with. */
  ghost predicate Ended(queue: seq<Spec>, chosen: set<Spec>, destState: State)
    reads Members(queue)
  {
    forall k :: 0 <= k < |queue| ==>
      if queue[k] in chosen then StatusOf(queue[k]) == Status(destState, false, destState == Running)
      else Failed(queue[k], destState)
  }

  /** Plugins a forward pass is done with. */
  ghost predicate Passed(queue: seq<Spec>, done: set<Spec>, destState: State)
    reads Members(queue)
  {
    forall k :: 0 <= k < |queue| ==> Came(queue[k], queue[k] in done, destState)
  }
}
