/**
  The command line options of the plugin manager, of which -noload changes the set of plugins.
 */
module OptionsParser {
  import opened DependencyGraph
  import opened PluginSpecs
  import opened PluginReading
  import opened LoadQueue

  const END_OF_OPTIONS := "--"
  const NO_LOAD_OPTION := "-noload"
  const TEST_OPTION := "-test"

  /** removeAll */
  function Without(specs: seq<Spec>, spec: Spec): (r: seq<Spec>)
    ensures forall s :: s in r ==> s in specs && s != spec
    ensures forall s :: s in specs && s != spec ==> s in r
  {
    if specs == [] then []
    else if specs[0] == spec then Without(specs[1..], spec)
    else [specs[0]] + Without(specs[1..], spec)
  }

  /** The list without each of the removed plugins. */
  function WithoutAll(specs: seq<Spec>, removed: seq<Spec>): (r: seq<Spec>)
    ensures forall s :: s in r ==> s in specs && s !in removed
    ensures forall s :: s in specs && s !in removed ==> s in r
  {
    if removed == [] then specs else Without(WithoutAll(specs, removed[..|removed| - 1]), removed[|removed| - 1])
  }

  // ------------------------------------------------------------------ what a command line means

  /** How far the reading of the options has come: the plugins that are left, those removed from them, the
      arguments for the application, the plugins to test, the application's options, the arguments given
      to plugins, and whether there was an error. */
  datatype Progress = Progress(specs: seq<Spec>, removed: seq<Spec>, arguments: seq<string>, tests: seq<Spec>,
                               found: map<string, string>, given: seq<(Spec, string)>, hasError: bool)

  function FirstNamed(specs: seq<Spec>, name: string): (r: Spec?)
    ensures r != null ==> r in specs && r.name == name
    ensures r == null ==> forall s :: s in specs ==> s.name != name
  {
    if specs == [] then null else if specs[0].name == name then specs[0] else FirstNamed(specs[1..], name)
  }

  function FirstWithOption(specs: seq<Spec>, option: string): (r: Spec?)
    ensures r != null ==> r in specs && option in r.options
    ensures r == null ==> forall s :: s in specs ==> option !in s.options
  {
    if specs == [] then null
    else if option in specs[0].options then specs[0]
    else FirstWithOption(specs[1..], option)
  }

  /** The arguments given to one plugin. */
  function GivenTo(given: seq<(Spec, string)>, s: Spec): seq<string> {
    if given == [] then []
    else
      var last := given[|given| - 1];
      GivenTo(given[..|given| - 1], s) + if last.0 == s then [last.1] else []
  }

  /** The plugin of the name is removed; without one there is an error. */
  function Unloaded(p: Progress, name: string): Progress {
    var s := FirstNamed(p.specs, name);
    if s == null then p.(hasError := true)
    else p.(specs := Without(p.specs, s), removed := p.removed + [s])
  }

  /** The effect of -noload, -test, an option of the application and any other word. */
  function NoLoadStep(args: seq<string>, i: nat, p: Progress): (Progress, int)
    requires i <= |args|
  {
    if i == |args| then (p.(hasError := true), -1)
    else (Unloaded(p, args[i]), if FirstNamed(p.specs, args[i]) == null then -1 else i + 1)
  }

  function TestStep(args: seq<string>, i: nat, p: Progress): (Progress, int)
    requires i <= |args|
  {
    var s := if i < |args| then FirstNamed(p.specs, args[i]) else null;
    if s == null then (p.(hasError := true), -1) else (p.(tests := p.tests + [s]), i + 1)
  }

  function AppStep(args: seq<string>, requiresArgument: bool, i: nat, p: Progress): (Progress, int)
    requires 0 < i <= |args|
  {
    var option := args[i - 1];
    if !requiresArgument then (p.(found := p.found[option := ""]), i)
    else if i == |args| then (p.(found := p.found[option := ""], hasError := true), -1)
    else (p.(found := p.found[option := args[i]]), i + 1)
  }

  function PluginStep(args: seq<string>, i: nat, p: Progress): (Progress, int)
    requires 0 < i <= |args|
  {
    var option := args[i - 1];
    var s := FirstWithOption(p.specs, option);
    if s == null && option != "" && option[0] == '-' then (p.(hasError := true), -1)
    else if s == null then (p.(arguments := p.arguments + [option]), i)
    else GiveStep(args, s, s.options[option], i, p)
  }

  function GiveStep(args: seq<string>, s: Spec, requiresArgument: bool, i: nat, p: Progress): (Progress, int)
    requires 0 < i <= |args|
  {
    var given := p.given + [(s, args[i - 1])];
    if !requiresArgument then (p.(given := given), i)
    else if i == |args| then (p.(given := given, hasError := true), -1)
    else (p.(given := given + [(s, args[i])]), i + 1)
  }

  /** The effect of the option name at position i - 1, and the position behind the option; no position when
      the reading of the options ends. */
  function Step(args: seq<string>, appOptions: map<string, bool>, i: nat, p: Progress): (Progress, int)
    requires 0 < i <= |args|
  {
    var option := args[i - 1];
    if option == END_OF_OPTIONS then (p.(arguments := p.arguments + args[i..]), -1)
    else if option == NO_LOAD_OPTION then NoLoadStep(args, i, p)
    else if option == TEST_OPTION then TestStep(args, i, p)
    else if option in appOptions then AppStep(args, appOptions[option], i, p)
    else PluginStep(args, i, p)
  }

  /** The outcome of reading the options from position i on. */
  function Walk(args: seq<string>, appOptions: map<string, bool>, i: nat, p: Progress): Progress
    requires i <= |args|
    decreases |args| - i
  {
    if i == |args| then p
    else
      var (q, next) := Step(args, appOptions, i + 1, p);
      if next > i && next <= |args| then Walk(args, appOptions, next, q) else q
  }

  lemma WalkStep(args: seq<string>, appOptions: map<string, bool>, i: nat, p: Progress, q: Progress, next: int)
    requires i < |args| && Step(args, appOptions, i + 1, p) == (q, next)
    ensures Walk(args, appOptions, i, p) == if i < next <= |args| then Walk(args, appOptions, next, q) else q
  {
  }

  /** One plugin is removed. */
  predicate WithoutPlugin(p: Progress, q: Progress, s: Spec) {
    q.specs == Without(p.specs, s) && q.removed == p.removed + [s]
  }

  /** A step removes nothing, or the first plugin of the name that follows -noload. */
  lemma StepRemoves(args: seq<string>, appOptions: map<string, bool>, i: nat, p: Progress, q: Progress, next: int)
    requires 0 < i <= |args| && Step(args, appOptions, i, p) == (q, next)
    ensures || (q.specs == p.specs && q.removed == p.removed)
            || (i < |args| && args[i - 1] == NO_LOAD_OPTION && FirstNamed(p.specs, args[i]) != null && next == i + 1
                && WithoutPlugin(p, q, FirstNamed(p.specs, args[i])))
  {
  }

  /** What has been removed from the plugins p.specs since the progress p. */
  ghost predicate RemovedSince(args: seq<string>, i: nat, p: Progress, r: Progress) {
    && |r.removed| >= |p.removed| && r.removed[..|p.removed|] == p.removed
    && r.specs == WithoutAll(p.specs, r.removed[|p.removed|..])
    && forall s :: s in r.removed[|p.removed|..] ==> s in p.specs && NamedByNoLoad(args, i, s)
  }

  lemma RemovedOne(args: seq<string>, i: nat, p: Progress, q: Progress, r: Progress, s: Spec)
    requires i + 1 < |args| && args[i] == NO_LOAD_OPTION && args[i + 1] == s.name && s in p.specs
    requires q.specs == Without(p.specs, s) && q.removed == p.removed + [s] && RemovedSince(args, i + 2, q, r)
    ensures RemovedSince(args, i, p, r)
  {
    var rest := r.removed[|q.removed|..];
    assert r.removed[..|p.removed|] == r.removed[..|q.removed|][..|p.removed|];
    assert r.removed[|p.removed|] == r.removed[..|q.removed|][|p.removed|];
    assert r.removed[|p.removed|..] == [s] + rest;
    WithoutFirst(p.specs, s, rest);
    assert NamedByNoLoad(args, i, s);
    forall t | t in rest
      ensures NamedByNoLoad(args, i, t)
    {
      NamedEarlier(args, i, i + 2, t);
    }
  }

  lemma NamedEarlier(args: seq<string>, i: nat, j: nat, s: Spec)
    requires i <= j && NamedByNoLoad(args, j, s)
    ensures NamedByNoLoad(args, i, s)
  {
  }

  lemma RemovedLater(args: seq<string>, i: nat, p: Progress, j: nat, q: Progress, r: Progress)
    requires i <= j && q.specs == p.specs && q.removed == p.removed && RemovedSince(args, j, q, r)
    ensures RemovedSince(args, i, p, r)
  {
    forall t | t in r.removed[|p.removed|..]
      ensures NamedByNoLoad(args, i, t)
    {
      NamedEarlier(args, i, j, t);
    }
  }

  lemma NothingRemoved(args: seq<string>, i: nat, p: Progress, r: Progress)
    requires r.specs == p.specs && r.removed == p.removed
    ensures RemovedSince(args, i, p, r)
  {
    assert r.removed[|p.removed|..] == [];
  }

  /** Only -noload removes plugins, each time the first one of the name that follows it. */
  lemma {:induction false} WalkRemoves(args: seq<string>, appOptions: map<string, bool>, i: nat, p: Progress)
    requires i <= |args|
    ensures RemovedSince(args, i, p, Walk(args, appOptions, i, p))
    decreases |args| - i
  {
    if i == |args| {
      NothingRemoved(args, i, p, p);
    } else {
      var s := Step(args, appOptions, i + 1, p);
      WalkStep(args, appOptions, i, p, s.0, s.1);
      StepRemoves(args, appOptions, i + 1, p, s.0, s.1);
      if i < s.1 <= |args| {
        WalkRemoves(args, appOptions, s.1, s.0);
        WalkRemovesStep(args, appOptions, i, p, s.0, s.1);
      } else {
        NothingRemoved(args, i, p, s.0);
      }
    }
  }

  lemma WalkRemovesStep(args: seq<string>, appOptions: map<string, bool>, i: nat, p: Progress, q: Progress, next: nat)
    requires i < next <= |args| && RemovedSince(args, next, q, Walk(args, appOptions, next, q))
    requires || (q.specs == p.specs && q.removed == p.removed)
             || (i + 1 < |args| && args[i] == NO_LOAD_OPTION && FirstNamed(p.specs, args[i + 1]) != null
                 && next == i + 2 && WithoutPlugin(p, q, FirstNamed(p.specs, args[i + 1])))
    ensures RemovedSince(args, i, p, Walk(args, appOptions, next, q))
  {
    var r := Walk(args, appOptions, next, q);
    if q.specs == p.specs && q.removed == p.removed {
      RemovedLater(args, i, p, next, q, r);
    } else {
      RemovedOne(args, i, p, q, r, FirstNamed(p.specs, args[i + 1]));
    }
  }

  /** From position i on, args holds -noload followed by the name of s. */
  predicate NamedByNoLoad(args: seq<string>, i: nat, s: Spec) {
    exists k :: i <= k < |args| - 1 && args[k] == NO_LOAD_OPTION && args[k + 1] == s.name
  }

  lemma {:induction false} WithoutFirst(specs: seq<Spec>, s: Spec, rest: seq<Spec>)
    ensures WithoutAll(Without(specs, s), rest) == WithoutAll(specs, [s] + rest)
  {
    var all := [s] + rest;
    if rest == [] {
      assert all[..0] == [];
      assert WithoutAll(specs, []) == specs;
    } else {
      WithoutFirst(specs, s, rest[..|rest| - 1]);
      assert all[..|all| - 1] == [s] + rest[..|rest| - 1];
    }
  }

  /** The program name and one -noload option for each of the names. */
  function NoLoadLine(program: string, names: seq<string>): seq<string> {
    if names == [] then [program]
    else NoLoadLine(program, names[..|names| - 1]) + [NO_LOAD_OPTION, names[|names| - 1]]
  }

  /** What a sequence of -noload options does: each takes the first plugin of its name out of those left, up
      to a name that no plugin has. */
  function Dropped(specs: seq<Spec>, names: seq<string>): (seq<Spec>, bool) {
    if names == [] then (specs, true)
    else
      var (left, ok) := Dropped(specs, names[..|names| - 1]);
      var s := FirstNamed(left, names[|names| - 1]);
      if !ok || s == null then (left, false) else (Without(left, s), true)
  }

  /** The arguments behind the program name begin with a -noload option for each of the names. */
  predicate HoldsNoLoads(args: seq<string>, names: seq<string>) {
    |args| > 2 * |names| && forall k :: 0 <= k < |names| ==> HoldsNoLoad(args, k, names[k])
  }

  predicate HoldsNoLoad(args: seq<string>, k: nat, name: string) {
    2 * k + 2 < |args| && args[2 * k + 1] == NO_LOAD_OPTION && args[2 * k + 2] == name
  }

  lemma {:induction false} NoLoadLineHolds(program: string, names: seq<string>)
    ensures |NoLoadLine(program, names)| == 1 + 2 * |names| && HoldsNoLoads(NoLoadLine(program, names), names)
  {
    if names != [] {
      var n := |names| - 1;
      NoLoadLineHolds(program, names[..n]);
      forall k | 0 <= k < |names|
        ensures HoldsNoLoad(NoLoadLine(program, names), k, names[k])
      {
        assert k < n ==> HoldsNoLoad(NoLoadLine(program, names[..n]), k, names[..n][k]);
      }
    }
  }

  /** At position i the outcome is that of a -noload option, if there is one. */
  predicate ReadsNoLoad(outcome: (nat, Progress) -> Progress, args: seq<string>, i: nat, p: Progress) {
    i + 1 < |args| && args[i] == NO_LOAD_OPTION && !p.hasError ==>
      var q := Unloaded(p, args[i + 1]);
      outcome(i, p) == if q.hasError then q else outcome(i + 2, q)
  }

  lemma WalkReadsNoLoad(outcome: (nat, Progress) -> Progress, args: seq<string>, appOptions: map<string, bool>,
                        i: nat, p: Progress)
    requires forall k: nat, r :: k <= |args| ==> outcome(k, r) == Walk(args, appOptions, k, r)
    ensures ReadsNoLoad(outcome, args, i, p)
  {
    if i + 1 < |args| && args[i] == NO_LOAD_OPTION && !p.hasError {
      var (q, next) := Step(args, appOptions, i + 1, p);
      WalkStep(args, appOptions, i, p, q, next);
    }
  }

  /** Reading the options as far as they go: q is the progress behind them, or the outcome. */
  lemma {:induction false} NoLoadsRead(outcome: (nat, Progress) -> Progress, args: seq<string>, names: seq<string>,
                                       p: Progress)
    returns (q: Progress)
    requires HoldsNoLoads(args, names) && !p.hasError && forall i: nat, r :: ReadsNoLoad(outcome, args, i, r)
    ensures (q.specs, !q.hasError) == Dropped(p.specs, names)
    ensures outcome(1, p) == if q.hasError then q else outcome(1 + 2 * |names|, q)
  {
    if names == [] {
      q := p;
    } else {
      var n := |names| - 1;
      q := NoLoadsRead(outcome, args, names[..n], p);
      if !q.hasError {
        assert HoldsNoLoad(args, n, names[n]);
        assert ReadsNoLoad(outcome, args, 1 + 2 * n, q);
        q := Unloaded(q, names[n]);
      }
    }
  }

  /** A command line of -noload options leaves the plugins without the named ones, and has no error, exactly
      when each name is that of a plugin that is left. */
  lemma NoLoads(appOptions: map<string, bool>, program: string, names: seq<string>, p: Progress)
    requires !p.hasError
    ensures |NoLoadLine(program, names)| >= 1
    ensures var r := Walk(NoLoadLine(program, names), appOptions, 1, p);
            && (r.hasError <==> !Dropped(p.specs, names).1)
            && r.specs == Dropped(p.specs, names).0
  {
    NoLoadLineHolds(program, names);
    var args := NoLoadLine(program, names);
    var outcome := (i: nat, r: Progress) => if i <= |args| then Walk(args, appOptions, i, r) else r;
    forall i: nat, r: Progress
      ensures ReadsNoLoad(outcome, args, i, r)
    {
      WalkReadsNoLoad(outcome, args, appOptions, i, r);
    }
    var q := NoLoadsRead(outcome, args, names, p);
    assert outcome(|args|, q) == q;
  }

  /** Behind the end of the options -noload is an argument like any other. */
  lemma NoLoadBehindEnd(appOptions: map<string, bool>, program: string, name: string, p: Progress)
    ensures Walk([program, END_OF_OPTIONS, NO_LOAD_OPTION, name], appOptions, 1, p) ==
            p.(arguments := p.arguments + [NO_LOAD_OPTION, name])
  {
    var args := [program, END_OF_OPTIONS, NO_LOAD_OPTION, name];
    assert args[1] == END_OF_OPTIONS && args[2..] == [NO_LOAD_OPTION, name];
  }

  // ------------------------------------------------------------------ the parser

  lemma TakeOne(a: seq<string>, args: seq<string>, i: nat)
    requires i < |args|
    ensures a + args[i..] == (a + [args[i]]) + args[i + 1..]
    ensures i + 1 == |args| ==> (a + [args[i]]) + args[i + 1..] == a + [args[i]]
  {
  }

  class Parser {
    const args: seq<string>
    const appOptions: map<string, bool>
    var pluginSpecs: seq<Spec>
    var arguments: seq<string>
    var testSpecs: seq<Spec>
    var foundAppOptions: map<string, string>
    var it: nat
    var currentArg: string
    var isDependencyRefreshNeeded: bool
    var hasError: bool
    ghost var removed: seq<Spec>
    ghost var given: seq<(Spec, string)>

    /** The first argument is the name of the program. */
    constructor (args: seq<string>, appOptions: map<string, bool>, pluginSpecs: seq<Spec>)
      requires |args| > 0
      ensures this.args == args && this.appOptions == appOptions && it == 1 && !isDependencyRefreshNeeded
      ensures Now() == Progress(pluginSpecs, [], [], [], map[], [], false)
    {
      this.args, this.appOptions, this.pluginSpecs := args, appOptions, pluginSpecs;
      arguments, testSpecs, foundAppOptions := [], [], map[];
      it, currentArg := 1, "";
      isDependencyRefreshNeeded, hasError, removed, given := false, false, [], [];
    }

    ghost function Now(): Progress
      reads this
    {
      Progress(pluginSpecs, removed, arguments, testSpecs, foundAppOptions, given, hasError)
    }

    method NextToken(required: bool) returns (ok: bool)
      requires it <= |args|
      modifies `it, `currentArg, `hasError
      ensures ok <==> old(it) < |args|
      ensures it == (if ok then old(it) + 1 else old(it))
              && currentArg == (if ok then args[old(it)] else old(currentArg))
      ensures hasError == (old(hasError) || (required && !ok))
    {
      if it == |args| {
        if required {
          hasError := true;
        }
        return false;
      }
      currentArg := args[it];
      it := it + 1;
      return true;
    }

    method PluginByName(name: string) returns (spec: Spec?)
      ensures spec == FirstNamed(pluginSpecs, name)
    {
      assert pluginSpecs[0..] == pluginSpecs;
      for i := 0 to |pluginSpecs|
        invariant FirstNamed(pluginSpecs, name) == FirstNamed(pluginSpecs[i..], name)
      {
        assert pluginSpecs[i..][1..] == pluginSpecs[i + 1..];
        if pluginSpecs[i].name == name {
          return pluginSpecs[i];
        }
      }
      return null;
    }

    method PluginForOption(option: string) returns (spec: Spec?, requiresArgument: bool)
      ensures spec == FirstWithOption(pluginSpecs, option)
      ensures requiresArgument == (spec != null && spec.options[option])
    {
      requiresArgument := false;
      assert pluginSpecs[0..] == pluginSpecs;
      for i := 0 to |pluginSpecs|
        invariant FirstWithOption(pluginSpecs, option) == FirstWithOption(pluginSpecs[i..], option)
      {
        assert pluginSpecs[i..][1..] == pluginSpecs[i + 1..];
        if option in pluginSpecs[i].options {
          return pluginSpecs[i], pluginSpecs[i].options[option];
        }
      }
      return null, false;
    }

    /** An option name has just been read; the dependencies have to be resolved again once a plugin has been
        removed. */
    ghost predicate AtOption()
      reads this
    {
      0 < it <= |args| && currentArg == args[it - 1] && !hasError && (isDependencyRefreshNeeded <==> removed != [])
    }

    /** The option that began at position i has been read as Step says. */
    twostate predicate Stepped()
      reads this
    {
      && old(0 < it <= |args|) && old(it) <= it <= |args|
      && (isDependencyRefreshNeeded <==> removed != [])
      && Step(args, appOptions, old(it), old(Now())) == (Now(), if hasError then -1 else it)
    }

    method CheckForEndOfOptions() returns (handled: bool)
      requires AtOption()
      modifies `it, `currentArg, `arguments, `hasError
      ensures handled <==> old(currentArg) == END_OF_OPTIONS
      ensures !handled ==> it == old(it) && currentArg == old(currentArg) && Now() == old(Now())
      ensures handled ==> it == |args| && Now() == old(Now()).(arguments := old(arguments) + args[old(it)..])
    {
      if currentArg != END_OF_OPTIONS {
        return false;
      }
      ghost var whole := arguments + args[it..];
      var more := NextToken(false);
      while more
        invariant hasError == old(hasError) && it <= |args|
        invariant more ==> it > 0 && currentArg == args[it - 1] && arguments + args[it - 1..] == whole
        invariant !more ==> it == |args| && arguments == whole
        decreases |args| - it, more
      {
        TakeOne(arguments, args, it - 1);
        arguments := arguments + [currentArg];
        more := NextToken(false);
      }
      return true;
    }

    method CheckForNoLoadOption() returns (handled: bool)
      requires AtOption()
      modifies `it, `currentArg, `hasError, `pluginSpecs, `isDependencyRefreshNeeded, `removed
      ensures handled <==> old(currentArg) == NO_LOAD_OPTION
      ensures !handled ==> it == old(it) && currentArg == old(currentArg) && Now() == old(Now())
      ensures handled ==> Stepped()
      ensures isDependencyRefreshNeeded <==> removed != []
    {
      if currentArg != NO_LOAD_OPTION {
        return false;
      }
      var ok := NextToken(true);
      if ok {
        Unload(currentArg);
      }
      return true;
    }

    method Unload(name: string)
      requires isDependencyRefreshNeeded <==> removed != []
      modifies `hasError, `pluginSpecs, `isDependencyRefreshNeeded, `removed
      ensures Now() == Unloaded(old(Now()), name)
      ensures isDependencyRefreshNeeded <==> removed != []
    {
      var spec := PluginByName(name);
      if spec == null {
        hasError := true;
      } else {
        pluginSpecs := Without(pluginSpecs, spec);
        removed := removed + [spec];
        isDependencyRefreshNeeded := true;
      }
    }

    method CheckForTestOption() returns (handled: bool)
      requires AtOption() && currentArg != END_OF_OPTIONS && currentArg != NO_LOAD_OPTION
      modifies `it, `currentArg, `hasError, `testSpecs
      ensures handled <==> old(currentArg) == TEST_OPTION
      ensures !handled ==> it == old(it) && currentArg == old(currentArg) && Now() == old(Now())
      ensures handled ==> Stepped()
    {
      if currentArg != TEST_OPTION {
        return false;
      }
      var ok := NextToken(true);
      if ok {
        var spec := PluginByName(currentArg);
        if spec == null {
          hasError := true;
        } else {
          testSpecs := testSpecs + [spec];
        }
      }
      return true;
    }

    method CheckForAppOption() returns (handled: bool)
      requires AtOption() && currentArg !in {END_OF_OPTIONS, NO_LOAD_OPTION, TEST_OPTION}
      modifies `it, `currentArg, `hasError, `foundAppOptions
      ensures handled <==> old(currentArg) in appOptions
      ensures !handled ==> it == old(it) && currentArg == old(currentArg) && Now() == old(Now())
      ensures handled ==> Stepped()
    {
      if currentArg !in appOptions {
        return false;
      }
      var option, argument := currentArg, "";
      if appOptions[currentArg] {
        var ok := NextToken(true);
        if ok {
          argument := currentArg;
        }
      }
      foundAppOptions := foundAppOptions[option := argument];
      return true;
    }

    /** The plugins have the arguments given to them, besides those they had. */
    ghost predicate ArgumentsGiven(all: seq<Spec>, before: map<Spec, seq<string>>)
      reads this, Members(all)
    {
      forall s :: s in all ==> s in before && s.arguments == before[s] + GivenTo(given, s)
    }

    method Give(spec: Spec, argument: string, ghost all: seq<Spec>, ghost before: map<Spec, seq<string>>)
      requires spec in all && ArgumentsGiven(all, before)
      modifies `given, spec`arguments
      ensures given == old(given) + [(spec, argument)] && ArgumentsGiven(all, before)
    {
      spec.arguments := spec.arguments + [argument];
      given := given + [(spec, argument)];
      assert given[..|given| - 1] == old(given);
    }

    method CheckForPluginOption(ghost all: seq<Spec>, ghost before: map<Spec, seq<string>>) returns (handled: bool)
      requires AtOption() && currentArg !in {END_OF_OPTIONS, NO_LOAD_OPTION, TEST_OPTION} && currentArg !in appOptions
      requires ArgumentsGiven(all, before) && forall s :: s in pluginSpecs ==> s in all
      modifies `it, `currentArg, `hasError, `given, Members(pluginSpecs)`arguments
      ensures handled <==> FirstWithOption(pluginSpecs, old(currentArg)) != null
      ensures !handled ==> it == old(it) && currentArg == old(currentArg) && Now() == old(Now())
      ensures handled ==>
        PluginStep(args, old(it), old(Now())) == (Now(), if hasError then -1 else it) && old(it) <= it <= |args|
      ensures ArgumentsGiven(all, before)
    {
      var spec, requiresParameter := PluginForOption(currentArg);
      if spec == null {
        return false;
      }
      GiveOption(spec, requiresParameter, all, before);
      return true;
    }

    /** A plugin is given one of its options, and the argument of that if it takes one. */
    method GiveOption(spec: Spec, requiresParameter: bool, ghost all: seq<Spec>, ghost before: map<Spec, seq<string>>)
      requires AtOption() && spec in all && ArgumentsGiven(all, before)
      modifies `it, `currentArg, `hasError, `given, spec`arguments
      ensures old(it) <= it <= |args| && ArgumentsGiven(all, before)
      ensures GiveStep(args, spec, requiresParameter, old(it), old(Now())) == (Now(), if hasError then -1 else it)
    {
      Give(spec, currentArg, all, before);
      if requiresParameter {
        var ok := NextToken(true);
        if ok {
          Give(spec, currentArg, all, before);
        }
      }
    }

    /** What is done with an option name that has just been read; false when the loop ends. */
    method HandleOption(ghost all: seq<Spec>, ghost before: map<Spec, seq<string>>) returns (more: bool)
      requires AtOption() && ArgumentsGiven(all, before) && forall s :: s in pluginSpecs ==> s in all
      modifies this, Members(pluginSpecs)`arguments
      ensures old(it) <= it <= |args| && (isDependencyRefreshNeeded <==> removed != [])
      ensures Step(args, appOptions, old(it), old(Now())) == (Now(), if more && !hasError then it else -1)
      ensures ArgumentsGiven(all, before) && forall s :: s in pluginSpecs ==> s in all
    {
      var handled := CheckForEndOfOptions();
      if handled {
        return false;
      }
      handled := CheckForNoLoadOption();
      if handled {
        return true;
      }
      more := HandleOtherOption(all, before);
    }

    method HandleOtherOption(ghost all: seq<Spec>, ghost before: map<Spec, seq<string>>) returns (more: bool)
      requires AtOption() && currentArg != END_OF_OPTIONS && currentArg != NO_LOAD_OPTION
      requires ArgumentsGiven(all, before) && forall s :: s in pluginSpecs ==> s in all
      modifies `it, `currentArg, `hasError, `testSpecs, `foundAppOptions, `given, `arguments,
               Members(pluginSpecs)`arguments
      ensures old(it) <= it <= |args| && ArgumentsGiven(all, before)
      ensures Step(args, appOptions, old(it), old(Now())) == (Now(), if more && !hasError then it else -1)
    {
      var handled := CheckForTestOption();
      if handled {
        return true;
      }
      handled := CheckForAppOption();
      if handled {
        return true;
      }
      more := HandlePluginOption(all, before);
    }

    /** What is done with a word that is none of the other options. */
    method HandlePluginOption(ghost all: seq<Spec>, ghost before: map<Spec, seq<string>>) returns (more: bool)
      requires AtOption() && currentArg !in {END_OF_OPTIONS, NO_LOAD_OPTION, TEST_OPTION} && currentArg !in appOptions
      requires ArgumentsGiven(all, before) && forall s :: s in pluginSpecs ==> s in all
      modifies `it, `currentArg, `hasError, `given, `arguments, Members(pluginSpecs)`arguments
      ensures old(it) <= it <= |args|
      ensures PluginStep(args, old(it), old(Now())) == (Now(), if more && !hasError then it else -1)
      ensures ArgumentsGiven(all, before)
    {
      var handled := CheckForPluginOption(all, before);
      if handled {
        return true;
      }
      if |currentArg| > 0 && currentArg[0] == '-' {
        hasError := true;
        return false;
      }
      arguments := arguments + [currentArg];
      more := true;
    }

    /** One round of the loop over the options; false when the loop ends. */
    method ParseOption(ghost all: seq<Spec>, ghost before: map<Spec, seq<string>>) returns (more: bool)
      requires 0 < it <= |args| && !hasError && (isDependencyRefreshNeeded <==> removed != [])
      requires ArgumentsGiven(all, before) && forall s :: s in pluginSpecs ==> s in all
      modifies this, Members(pluginSpecs)`arguments
      ensures old(it) <= it <= |args| && (isDependencyRefreshNeeded <==> removed != [])
      ensures more && !hasError ==> it > old(it)
      ensures Walk(args, appOptions, old(it), old(Now())) ==
              if more && !hasError then Walk(args, appOptions, it, Now()) else Now()
      ensures ArgumentsGiven(all, before) && forall s :: s in pluginSpecs ==> s in all
    {
      more := NextToken(false);
      if more {
        more := HandleOption(all, before);
        WalkStep(args, appOptions, old(it), old(Now()), Now(), if more && !hasError then it else -1);
      }
    }

    /** Read all options: the outcome is that of Walk.  When a plugin has been removed, the dependencies of
        those that are left are resolved again; otherwise they stay as they are. */
    method Parse() returns (ok: bool)
      requires it == 1 <= |args| && !hasError && !isDependencyRefreshNeeded && removed == [] && given == []
      requires Settled(pluginSpecs)
      modifies this, Members(pluginSpecs)`state, Members(pluginSpecs)`hasError, Members(pluginSpecs)`dependencySpecs,
               Members(pluginSpecs)`arguments
      ensures Now() == Walk(args, appOptions, 1, old(Now())) && ok == !hasError
      ensures forall s :: s in old(pluginSpecs) ==> s.arguments == old(s.arguments) + GivenTo(given, s)
      ensures Settled(pluginSpecs)
      ensures removed == [] ==> pluginSpecs == old(pluginSpecs)
      ensures removed == [] ==> forall s :: s in pluginSpecs ==> Unchanged(s)
      ensures removed != [] ==> FreshlyResolved(pluginSpecs)
      ensures removed != [] ==> forall s :: s in old(pluginSpecs) && s in pluginSpecs ==>
                (s.state, s.hasError) == AfterResolving(old(s.state), old(s.hasError), s.Resolvable(pluginSpecs))
      ensures FreshlyResolved(pluginSpecs) <==> removed != [] || old(FreshlyResolved(pluginSpecs))
    {
      ghost var all, before := pluginSpecs, map s | s in pluginSpecs :: s.arguments;
      var more := true;
      while !hasError && more
        invariant 0 < it <= |args| && (isDependencyRefreshNeeded <==> removed != [])
        invariant Walk(args, appOptions, 1, old(Now())) == if !hasError && more then Walk(args, appOptions, it, Now())
                  else Now()
        invariant ArgumentsGiven(all, before) && forall s :: s in pluginSpecs ==> s in all
        invariant forall s :: s in all ==> Unchanged(s)
        decreases |args| - it, !hasError && more
      {
        more := ParseOption(all, before);
      }
      WalkRemoves(args, appOptions, 1, old(Now()));
      assert removed[0..] == removed;
      assert pluginSpecs == WithoutAll(all, removed);
      if isDependencyRefreshNeeded {
        ResolveAll(pluginSpecs);
      }
      ok := !hasError;
    }
  }

  /** Reading the plugins and then the options.  The dependencies of the plugins that are left are the first
      providers in their list exactly when a plugin has been removed or the sort by name did no harm. */
  method ReadAndParse(args: seq<string>, appOptions: map<string, bool>, read: seq<Spec>)
    returns (parser: Parser, ok: bool)
    requires |args| > 0 && forall s :: s in read ==> s.state == if s.hasError then Invalid else Read
    modifies Members(read)
    ensures parser.Now() == Walk(args, appOptions, 1, Progress(SortByName(read), [], [], [], map[], [], false))
    ensures ok == !parser.hasError && Settled(parser.pluginSpecs)
    ensures FreshlyResolved(parser.pluginSpecs) <==> parser.removed != [] || ChosenByName(read)
  {
    var pluginSpecs := ReadPluginPaths(read);
    SortIsSorted(read);
    parser := new Parser(args, appOptions, pluginSpecs);
    ok := parser.Parse();
  }

  /** What the parser leaves can be loaded. */
  lemma SettledIsFresh(specs: seq<Spec>)
    requires Settled(specs)
    ensures Closed(Members(specs))
    ensures forall s :: s in specs && Ready(s) ==> s.state == Resolved && !s.hasError
  {
  }
}
