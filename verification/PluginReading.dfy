/**
  Reading the plugin descriptions: the dependencies are resolved first, and then the list is sorted
  by name (ground/gcs/src/libs/extensionsystem/pluginmanager.cpp).
 */
module PluginReading {
  import opened DependencyGraph
  import opened PluginSpecs

  /** Plugins as reading and resolving leaves them: an error keeps a plugin from being resolved. */
  ghost predicate Readable(specs: seq<Spec>)
    reads Members(specs)
  {
    forall s :: s in specs ==> s.state in {Invalid, Read, Resolved} && (s.hasError ==> s.state != Resolved)
  }

  /** Every resolved plugin has its dependencies among the plugins. */
  ghost predicate Settled(specs: seq<Spec>)
    reads Members(specs)
  {
    Readable(specs) && forall s, d :: s in specs && s.state == Resolved && d in s.dependencySpecs ==> d in specs
  }

  /** ... namely, for each dependency, the first plugin of the list that provides it. */
  ghost predicate FreshlyResolved(specs: seq<Spec>)
    reads Members(specs)
  {
    forall s :: s in specs && s.state == Resolved ==> s.ResolvedIn(specs)
  }

  /** What resolving makes of a plugin: its state, and whether it has an error. */
  function AfterResolving(state: State, hasError: bool, resolvable: bool): (State, bool) {
    if !hasError && state in {Read, Resolved} && resolvable then (Resolved, false)
    else (if !hasError && state == Resolved then Read else state, true)
  }

  twostate predicate Unchanged(s: Spec)
    reads s
  {
    s.state == old(s.state) && s.hasError == old(s.hasError) && s.dependencySpecs == old(s.dependencySpecs)
  }

  lemma FreshlyResolvedIsSettled(specs: seq<Spec>)
    requires Readable(specs) && FreshlyResolved(specs)
    ensures Settled(specs)
  {
    forall s, d | s in specs && s.state == Resolved && d in s.dependencySpecs
      ensures d in specs
    {
      var k :| 0 <= k < |s.dependencySpecs| && s.dependencySpecs[k] == d;
      assert d.IsFirstProvider(specs, s.dependencies[k]);
    }
  }

  twostate predicate IsResolved(s: Spec, specs: seq<Spec>)
    reads s
  {
    && (s.state, s.hasError) == AfterResolving(old(s.state), old(s.hasError), s.Resolvable(specs))
    && if s.state == Resolved then s.ResolvedIn(specs) else s.dependencySpecs == old(s.dependencySpecs)
  }

  /** resolveDependencies of the manager: exactly the plugins without an error whose dependencies all
      have a provider are resolved, to the first providers; the others have an error. */
  method ResolveAll(specs: seq<Spec>)
    requires Readable(specs)
    modifies Members(specs)`state, Members(specs)`hasError, Members(specs)`dependencySpecs
    ensures Readable(specs) && FreshlyResolved(specs) && Settled(specs)
    ensures forall s :: s in specs ==>
            (s.state, s.hasError) == AfterResolving(old(s.state), old(s.hasError), s.Resolvable(specs))
    ensures forall s :: s in specs && s.state != Resolved ==> s.dependencySpecs == old(s.dependencySpecs)
  {
    for i := 0 to |specs|
      invariant Readable(specs)
      invariant forall s :: s in specs[..i] ==> IsResolved(s, specs)
      invariant forall s :: s in specs && s !in specs[..i] ==> Unchanged(s)
    {
      var _ := specs[i].ResolveDependencies(specs);
      assert specs[..i + 1] == specs[..i] + [specs[i]];
    }
    assert specs[..|specs|] == specs;
    FreshlyResolvedIsSettled(specs);
  }

  // ------------------------------------------------------------------ sorting by name

  /** The order of two names, character by character. */
  predicate NameLess(a: string, b: string) {
    b != "" && (a == "" || a[0] < b[0] || (a[0] == b[0] && NameLess(a[1..], b[1..])))
  }

  /** The names agree up to some position, where the first ends or has the smaller character. */
  ghost predicate ComesBefore(a: string, b: string, k: nat) {
    k <= |a| && k < |b| && (forall j :: 0 <= j < k ==> a[j] == b[j]) && (k == |a| || a[k] < b[k])
  }

  lemma {:induction false} NameLessIff(a: string, b: string)
    ensures NameLess(a, b) <==> exists k: nat :: ComesBefore(a, b, k)
  {
    if a != "" && b != "" && a[0] == b[0] {
      NameLessIff(a[1..], b[1..]);
      if NameLess(a[1..], b[1..]) {
        var k: nat :| ComesBefore(a[1..], b[1..], k);
        BeforeInBoth(a, b, k);
      }
      if k: nat :| ComesBefore(a, b, k) {
        BeforeInBoth(a, b, k - 1);
      }
    } else if NameLess(a, b) {
      assert ComesBefore(a, b, 0);
    }
  }

  lemma BeforeInBoth(a: string, b: string, k: nat)
    requires a != "" && b != "" && a[0] == b[0]
    ensures ComesBefore(a, b, k + 1) <==> ComesBefore(a[1..], b[1..], k)
  {
    if ComesBefore(a, b, k + 1) {
      assert forall j :: 0 <= j < k ==> a[1..][j] == a[j + 1] && b[1..][j] == b[j + 1];
    }
    if ComesBefore(a[1..], b[1..], k) {
      assert forall j :: 0 < j < k + 1 ==> a[j] == a[1..][j - 1] && b[j] == b[1..][j - 1];
    }
  }

  lemma {:induction false} NameLessTotal(a: string, b: string)
    ensures !(NameLess(a, b) && NameLess(b, a)) && (NameLess(a, b) || NameLess(b, a) || a == b)
  {
    if a != "" && b != "" {
      NameLessTotal(a[1..], b[1..]);
      if a[0] == b[0] && a[1..] == b[1..] {
        assert a == [a[0]] + a[1..] && b == [b[0]] + b[1..];
      }
    }
  }

  lemma {:induction false} NameLessTransitive(a: string, b: string, c: string)
    requires !NameLess(b, a) && !NameLess(c, b)
    ensures !NameLess(c, a)
  {
    if a != "" && b != "" && c != "" {
      if a[0] == b[0] && b[0] == c[0] {
        NameLessTransitive(a[1..], b[1..], c[1..]);
      }
    }
  }

  /** qSort by name; plugins of the same name keep their order. */
  function SortByName(specs: seq<Spec>): seq<Spec> {
    if specs == [] then [] else InsertByName(specs[0], SortByName(specs[1..]))
  }

  function InsertByName(x: Spec, t: seq<Spec>): seq<Spec> {
    if t == [] || !NameLess(t[0].name, x.name) then [x] + t else [t[0]] + InsertByName(x, t[1..])
  }

  predicate SortedByName(t: seq<Spec>) {
    forall i, j :: 0 <= i <= j < |t| ==> !NameLess(t[j].name, t[i].name)
  }

  lemma {:induction false} InsertKeeps(x: Spec, t: seq<Spec>, s: Spec)
    ensures s in InsertByName(x, t) <==> s == x || s in t
  {
    if t != [] && NameLess(t[0].name, x.name) {
      InsertKeeps(x, t[1..], s);
      assert t == [t[0]] + t[1..];
    }
  }

  lemma {:induction false} InsertSorted(x: Spec, t: seq<Spec>)
    requires SortedByName(t)
    ensures SortedByName(InsertByName(x, t))
  {
    var r := InsertByName(x, t);
    if t == [] || !NameLess(t[0].name, x.name) {
      forall j | 0 <= j < |r|
        ensures !NameLess(r[j].name, x.name)
      {
        NameLessTotal(x.name, x.name);
        if j > 0 {
          NameLessTransitive(x.name, t[0].name, t[j - 1].name);
        }
      }
    } else {
      var rest := InsertByName(x, t[1..]);
      InsertSorted(x, t[1..]);
      forall j | 0 <= j < |rest|
        ensures !NameLess(rest[j].name, t[0].name)
      {
        NameLessTotal(t[0].name, x.name);
        InsertKeeps(x, t[1..], rest[j]);
        if rest[j] != x {
          assert rest[j] in t[1..];
          var k :| 0 <= k < |t[1..]| && t[1..][k] == rest[j];
          assert t[k + 1] == rest[j];
        }
      }
      NameLessTotal(t[0].name, t[0].name);
      ConsSorted(t[0], rest);
    }
  }

  lemma ConsSorted(x: Spec, t: seq<Spec>)
    requires SortedByName(t) && !NameLess(x.name, x.name) && forall j :: 0 <= j < |t| ==> !NameLess(t[j].name, x.name)
    ensures SortedByName([x] + t)
  {
    var r := [x] + t;
    forall i, j | 0 <= i <= j < |r|
      ensures !NameLess(r[j].name, r[i].name)
    {
      if i > 0 {
        assert r[j] == t[j - 1] && r[i] == t[i - 1];
      }
    }
  }

  /** Sorting reorders the plugins by name. */
  lemma {:induction false} SortIsSorted(specs: seq<Spec>)
    ensures SortedByName(SortByName(specs)) && SameMembers(SortByName(specs), specs)
  {
    if specs != [] {
      SortIsSorted(specs[1..]);
      InsertSorted(specs[0], SortByName(specs[1..]));
    }
    forall s | s in SortByName(specs)
      ensures s in specs
    {
      SortKeeps(specs, s);
    }
    forall s | s in specs
      ensures s in SortByName(specs)
    {
      SortKeeps(specs, s);
    }
  }

  lemma {:induction false} SortKeeps(specs: seq<Spec>, s: Spec)
    ensures s in SortByName(specs) <==> s in specs
  {
    if specs != [] {
      SortKeeps(specs[1..], s);
      InsertKeeps(specs[0], SortByName(specs[1..]), s);
      assert specs == [specs[0]] + specs[1..];
    }
  }

  ghost predicate SameMembers(a: seq<Spec>, b: seq<Spec>) {
    (forall s :: s in a ==> s in b) && (forall s :: s in b ==> s in a)
  }

  /** ... and keeps each as often as it was there. */
  lemma {:induction false} SortPermutes(specs: seq<Spec>)
    ensures multiset(SortByName(specs)) == multiset(specs)
  {
    if specs != [] {
      SortPermutes(specs[1..]);
      InsertAdds(specs[0], SortByName(specs[1..]));
      assert specs == [specs[0]] + specs[1..];
    }
  }

  lemma {:induction false} InsertAdds(x: Spec, t: seq<Spec>)
    ensures multiset(InsertByName(x, t)) == multiset(t) + multiset{x}
  {
    if t != [] && NameLess(t[0].name, x.name) {
      InsertAdds(x, t[1..]);
      assert t == [t[0]] + t[1..];
    }
  }

  // ------------------------------------------------------------------ what sorting does to the first providers

  function FirstProvider(specs: seq<Spec>, d: Dependency): Spec? {
    if specs == [] then null
    else if specs[0].Provides(d.name, d.version) then specs[0]
    else FirstProvider(specs[1..], d)
  }

  lemma {:induction false} FirstProviderIs(specs: seq<Spec>, d: Dependency, s: Spec)
    ensures s.IsFirstProvider(specs, d) <==> FirstProvider(specs, d) == s
  {
    if specs != [] {
      var rest := specs[1..];
      FirstProviderIs(rest, d, s);
      if specs[0].Provides(d.name, d.version) {
        if s.IsFirstProvider(specs, d) {
          var i :| 0 <= i < |specs| && specs[i] == s
            && forall j :: 0 <= j < i ==> !specs[j].Provides(d.name, d.version);
          assert i == 0;
        }
      } else {
        if s.IsFirstProvider(specs, d) {
          var i :| 0 <= i < |specs| && specs[i] == s && s.Provides(d.name, d.version)
            && forall j :: 0 <= j < i ==> !specs[j].Provides(d.name, d.version);
          assert rest[i - 1] == s && forall j :: 0 <= j < i - 1 ==> !rest[j].Provides(d.name, d.version);
        }
        if s.IsFirstProvider(rest, d) {
          var i :| 0 <= i < |rest| && rest[i] == s && forall j :: 0 <= j < i ==> !rest[j].Provides(d.name, d.version);
          assert specs[i + 1] == s;
          forall j | 0 <= j < i + 1
            ensures !specs[j].Provides(d.name, d.version)
          {
            assert j > 0 ==> specs[j] == rest[j - 1];
          }
        }
      }
    }
  }

  /** The provider with the least name, and the first of those in the list. */
  function LeastProvider(specs: seq<Spec>, d: Dependency): (r: Spec?)
    ensures r != null ==> r in specs && r.Provides(d.name, d.version)
    ensures r == null ==> forall p :: p in specs ==> !p.Provides(d.name, d.version)
  {
    if specs == [] then null
    else
      var r := LeastProvider(specs[1..], d);
      if !specs[0].Provides(d.name, d.version) || (r != null && NameLess(r.name, specs[0].name)) then r else specs[0]
  }

  lemma {:induction false} LeastIsLeast(specs: seq<Spec>, d: Dependency, p: Spec)
    requires p in specs && p.Provides(d.name, d.version)
    ensures LeastProvider(specs, d) != null && !NameLess(p.name, LeastProvider(specs, d).name)
  {
    var r, l := LeastProvider(specs[1..], d), LeastProvider(specs, d);
    if p == specs[0] {
      NameLessTotal(p.name, l.name);
    } else {
      LeastIsLeast(specs[1..], d, p);
      if l != r {
        NameLessTransitive(l.name, r.name, p.name);
      }
    }
  }

  lemma {:induction false} InsertFirst(x: Spec, t: seq<Spec>, d: Dependency)
    requires SortedByName(t)
    ensures var r := FirstProvider(t, d);
            FirstProvider(InsertByName(x, t), d) ==
            if !x.Provides(d.name, d.version) || (r != null && NameLess(r.name, x.name)) then r else x
  {
    if t == [] || !NameLess(t[0].name, x.name) {
      FirstMember(t, d);
      if FirstProvider(t, d) != null {
        NameLessTransitive(x.name, t[0].name, FirstProvider(t, d).name);
      }
      assert ([x] + t)[1..] == t;
    } else {
      InsertFirst(x, t[1..], d);
      assert ([t[0]] + InsertByName(x, t[1..]))[1..] == InsertByName(x, t[1..]);
    }
  }

  lemma {:induction false} FirstMember(t: seq<Spec>, d: Dependency)
    ensures FirstProvider(t, d) != null ==> FirstProvider(t, d) in t
  {
    if t != [] {
      FirstMember(t[1..], d);
    }
  }

  /** After the sort the first provider is the one with the least name. */
  lemma {:induction false} SortedFirst(specs: seq<Spec>, d: Dependency)
    ensures FirstProvider(SortByName(specs), d) == LeastProvider(specs, d)
  {
    if specs != [] {
      SortedFirst(specs[1..], d);
      SortIsSorted(specs[1..]);
      InsertFirst(specs[0], SortByName(specs[1..]), d);
    }
  }

  /** No provider of the dependency has a smaller name than f. */
  predicate NoneSmaller(specs: seq<Spec>, d: Dependency, f: Spec) {
    forall p :: p in specs && p.Provides(d.name, d.version) ==> !NameLess(p.name, f.name)
  }

  lemma {:induction false} LeastIsFirst(specs: seq<Spec>, d: Dependency, f: Spec)
    requires FirstProvider(specs, d) == f
    ensures LeastProvider(specs, d) == f <==> NoneSmaller(specs, d, f)
  {
    if specs[0] == f && f.Provides(d.name, d.version) {
      var l := LeastProvider(specs, d);
      if l == f {
        forall p | p in specs && p.Provides(d.name, d.version)
          ensures !NameLess(p.name, f.name)
        {
          LeastIsLeast(specs, d, p);
        }
      }
    } else {
      LeastIsFirst(specs[1..], d, f);
    }
  }

  /** The first providers found before the sort are the first providers after it exactly when no
      provider of a dependency comes before the chosen one by name. */
  lemma SortKeepsFirstProviders(specs: seq<Spec>)
    requires FreshlyResolved(specs)
    ensures FreshlyResolved(SortByName(specs)) <==> ChosenByName(specs)
  {
    var sorted := SortByName(specs);
    SortIsSorted(specs);
    forall s, k | s in specs && s.state == Resolved && 0 <= k < |s.dependencies|
      ensures s.dependencySpecs[k].IsFirstProvider(sorted, s.dependencies[k]) <==>
              NoneSmaller(specs, s.dependencies[k], s.dependencySpecs[k])
    {
      var d, f := s.dependencies[k], s.dependencySpecs[k];
      assert s.ResolvedIn(specs);
      FirstProviderIs(specs, d, f);
      FirstProviderIs(sorted, d, f);
      SortedFirst(specs, d);
      LeastIsFirst(specs, d, f);
    }
  }

  /** Each dependency of a resolved plugin is the provider with the least name. */
  ghost predicate ChosenByName(specs: seq<Spec>)
    reads Members(specs)
  {
    forall s, k :: s in specs && s.state == Resolved && 0 <= k < |s.dependencies| && k < |s.dependencySpecs| ==>
      NoneSmaller(specs, s.dependencies[k], s.dependencySpecs[k])
  }

  /** readPluginPaths, from the specifications that have been read. */
  method ReadPluginPaths(read: seq<Spec>) returns (pluginSpecs: seq<Spec>)
    requires forall s :: s in read ==> s.state == if s.hasError then Invalid else Read
    modifies Members(read)`state, Members(read)`hasError, Members(read)`dependencySpecs
    ensures pluginSpecs == SortByName(read) && Settled(pluginSpecs) && FreshlyResolved(read)
    ensures forall s :: s in read ==>
            (s.state, s.hasError) == AfterResolving(old(s.state), old(s.hasError), s.Resolvable(read))
    ensures FreshlyResolved(pluginSpecs) <==> ChosenByName(read)
  {
    ResolveAll(read);
    pluginSpecs := SortByName(read);
    SortIsSorted(read);
    SortKeepsFirstProviders(read);
    SameSettled(read, pluginSpecs);
  }

  lemma SameSettled(a: seq<Spec>, b: seq<Spec>)
    requires Settled(a) && SameMembers(b, a)
    ensures Settled(b)
  {
  }

  /** Two plugins whose names differ in case only: the one that was found first in the file system is
      the dependency, but the other one is the first provider in the sorted list. */
  method SortMovesProvider() returns (pluginSpecs: seq<Spec>, app: Spec, lower: Spec, upper: Spec)
    ensures lower.name == "core" && upper.name == "Core" && app.dependencies == [Dependency("core", lower.version)]
    ensures app.state == Resolved && app.dependencySpecs == [lower]
    ensures pluginSpecs == [upper, app, lower] && !FreshlyResolved(pluginSpecs)
  {
    lower, upper, app := ThreePlugins();
    var read := [lower, upper, app];
    BothProvide(lower, upper, app, read);
    pluginSpecs := ReadPluginPaths(read);
    SortedExample(lower, upper, app);
    assert app in read;
    FirstIsLower(lower, upper, app, read);
  }

  method ThreePlugins() returns (lower: Spec, upper: Spec, app: Spec)
    ensures fresh(lower) && fresh(upper) && fresh(app)
    ensures lower.name == "core" && upper.name == "Core" && app.name == "app"
            && app.dependencies == [Dependency("core", lower.version)]
    ensures lower.version == lower.compatVersion == upper.version == upper.compatVersion
    ensures forall s :: s in [lower, upper, app] ==> s.state == Read && !s.hasError
  {
    var v := Version(1, 0, 0, 0);
    lower := new Spec("core", v, v, [], map[], true);
    upper := new Spec("Core", v, v, [], map[], true);
    app := new Spec("app", v, v, [Dependency("core", v)], map[], true);
  }

  lemma BothProvide(lower: Spec, upper: Spec, app: Spec, read: seq<Spec>)
    requires lower.name == "core" && upper.name == "Core"
             && lower.version == lower.compatVersion == upper.version == upper.compatVersion
    requires read == [lower, upper, app] && app.dependencies == [Dependency("core", lower.version)]
    ensures lower.Provides("core", lower.version) && upper.Provides("core", lower.version)
            && NameLess(upper.name, lower.name)
    ensures app.Resolvable(read)
  {
    assert SameName("core", "core") && SameName("core", "Core");
    assert read[0].Provides("core", lower.version);
  }

  lemma FirstIsLower(lower: Spec, upper: Spec, app: Spec, read: seq<Spec>)
    requires lower.name == "core" && upper.name == "Core"
             && lower.version == lower.compatVersion == upper.version == upper.compatVersion
    requires app.state == Resolved && app.dependencies == [Dependency("core", lower.version)]
    requires read == [lower, upper, app] && FreshlyResolved(read)
    ensures app.dependencySpecs == [lower] && !ChosenByName(read)
  {
    var d := Dependency("core", lower.version);
    BothProvide(lower, upper, app, read);
    assert app in read && app.ResolvedIn(read);
    FirstProviderIs(read, d, app.dependencySpecs[0]);
    assert app.dependencySpecs == [lower];
    assert upper in read && !NoneSmaller(read, d, lower);
  }

  lemma SortedExample(lower: Spec, upper: Spec, app: Spec)
    requires lower.name == "core" && upper.name == "Core" && app.name == "app"
    ensures SortByName([lower, upper, app]) == [upper, app, lower]
  {
    assert [lower, upper, app][1..] == [upper, app] && [upper, app][1..] == [app];
    assert SortByName([app]) == [app];
    assert !NameLess(app.name, upper.name);
    assert SortByName([upper, app]) == [upper, app];
    assert NameLess(upper.name, lower.name) && NameLess(app.name, lower.name);
    assert [upper, app][1..] == [app] && [app][1..] == [];
    assert InsertByName(lower, []) == [lower];
    assert InsertByName(lower, [app]) == [app] + InsertByName(lower, [app][1..]);
    assert InsertByName(lower, [upper, app]) == [upper] + InsertByName(lower, [upper, app][1..]);
  }
}
