/**
  Plugin specifications: versions, what a plugin provides, and the resolution of dependencies.
 */
module PluginSpecs {
  /** A version string split at its dots and its underscore; a missing part counts as zero. */
  datatype Version = NotAVersion | Version(major: nat, minor: nat, patch: nat, build: nat)

  /** Compare part by part; a string that is not a version compares equal to everything. */
  function VersionCompare(a: Version, b: Version): (c: int) {
    if a.NotAVersion? || b.NotAVersion? then 0
    else if a.major < b.major then -1 else if a.major > b.major then 1
    else if a.minor < b.minor then -1 else if a.minor > b.minor then 1
    else if a.patch < b.patch then -1 else if a.patch > b.patch then 1
    else if a.build < b.build then -1 else if a.build > b.build then 1
    else 0
  }

  /** On real versions the comparison is a total order. */
  lemma VersionOrder(a: Version, b: Version, c: Version)
    requires a.Version? && b.Version? && c.Version?
    ensures VersionCompare(a, b) == -VersionCompare(b, a)
    ensures VersionCompare(a, b) == 0 <==> a == b
    ensures VersionCompare(a, b) <= 0 && VersionCompare(b, c) <= 0 ==> VersionCompare(a, c) <= 0
  {
  }

  /** The components of a version, from major to build. */
  function Component(v: Version, i: nat): nat
    requires v.Version? && i < 4
  {
    if i == 0 then v.major else if i == 1 then v.minor else if i == 2 then v.patch else v.build
  }

  /** a is smaller in the first component in which the two differ. */
  predicate Earlier(a: Version, b: Version)
    requires a.Version? && b.Version?
  {
    exists i: nat :: i < 4 && FirstLess(a, b, i)
  }

  predicate FirstLess(a: Version, b: Version, i: nat)
    requires a.Version? && b.Version? && i < 4
  {
    Component(a, i) < Component(b, i) && forall j: nat :: j < i ==> Component(a, j) == Component(b, j)
  }

  lemma CompareIsBefore(a: Version, b: Version)
    requires a.Version? && b.Version?
    ensures VersionCompare(a, b) < 0 <==> Earlier(a, b)
    ensures VersionCompare(a, b) > 0 <==> Earlier(b, a)
  {
    LessIsBefore(a, b);
    LessIsBefore(b, a);
  }

  lemma LessIsBefore(a: Version, b: Version)
    requires a.Version? && b.Version?
    ensures VersionCompare(a, b) < 0 <==> Earlier(a, b)
  {
    if VersionCompare(a, b) < 0 {
      var i := if a.major != b.major then 0 else if a.minor != b.minor then 1 else if a.patch != b.patch then 2 else 3;
      assert FirstLess(a, b, i);
    }
    if Earlier(a, b) {
      var i: nat :| i < 4 && FirstLess(a, b, i);
      assert forall j: nat :: j < i ==> Component(a, j) == Component(b, j);
      assert i > 0 ==> Component(a, 0) == Component(b, 0);
      assert i > 1 ==> Component(a, 1) == Component(b, 1);
      assert i > 2 ==> Component(a, 2) == Component(b, 2);
    }
  }

  datatype Dependency = Dependency(name: string, version: Version)

  datatype State = Invalid | Read | Resolved | Loaded | Initialized | Running | Stopped | Deleted

  function Lower(c: char): char {
    if 'A' <= c <= 'Z' then c - 'A' + 'a' else c
  }

  /** Equality up to the case of the letters A to Z. */
  predicate SameName(a: string, b: string) {
    |a| == |b| && forall i :: 0 <= i < |a| ==> Lower(a[i]) == Lower(b[i])
  }

  /** Some specification of the list provides the dependency. */
  ghost predicate Provided(specs: seq<Spec>, d: Dependency) {
    exists i :: 0 <= i < |specs| && specs[i].Provides(d.name, d.version)
  }

  class Spec {
    const name: string
    const version: Version
    const compatVersion: Version
    const dependencies: seq<Dependency>
    const options: map<string, bool>
    var dependencySpecs: seq<Spec>
    var state: State
    var hasError: bool
    var plugin: bool
    var arguments: seq<string>

    /** What reading the description file leaves: everything but the dependencies is known. */
    constructor (name: string, version: Version, compatVersion: Version, dependencies: seq<Dependency>,
                 options: map<string, bool>, readable: bool)
      ensures this.name == name && this.version == version && this.compatVersion == compatVersion
      ensures this.dependencies == dependencies && this.options == options
      ensures state == (if readable then Read else Invalid) && hasError == !readable && !plugin && dependencySpecs == []
    {
      this.name, this.version, this.compatVersion := name, version, compatVersion;
      this.dependencies, this.options := dependencies, options;
      dependencySpecs, plugin, arguments := [], false, [];
      state, hasError := if readable then Read else Invalid, !readable;
    }

    /** Whether this plugin can fill in a dependency: the name fits, and the requested version lies
        between the compatibility version and the version. */
    predicate Provides(pluginName: string, pluginVersion: Version) {
      SameName(pluginName, name)
      && VersionCompare(version, pluginVersion) >= 0 && VersionCompare(compatVersion, pluginVersion) <= 0
    }

    /** This specification is the first of the list that provides the dependency. */
    ghost predicate IsFirstProvider(specs: seq<Spec>, d: Dependency) {
      exists i :: 0 <= i < |specs| && specs[i] == this && Provides(d.name, d.version)
                  && forall j :: 0 <= j < i ==> !specs[j].Provides(d.name, d.version)
    }

    /** The dependencies are resolved to the first providers in the list. */
    ghost predicate ResolvedIn(specs: seq<Spec>)
      reads this
    {
      |dependencySpecs| == |dependencies|
      && forall k :: 0 <= k < |dependencies| ==> dependencySpecs[k].IsFirstProvider(specs, dependencies[k])
    }

    ghost predicate Resolvable(specs: seq<Spec>) {
      forall k :: 0 <= k < |dependencies| ==> Provided(specs, dependencies[k])
    }

    method FindProvider(specs: seq<Spec>, d: Dependency) returns (found: Spec?)
      ensures found != null ==> found.IsFirstProvider(specs, d)
      ensures found != null <==> Provided(specs, d)
    {
      for i := 0 to |specs|
        invariant forall j :: 0 <= j < i ==> !specs[j].Provides(d.name, d.version)
      {
        if specs[i].Provides(d.name, d.version) {
          return specs[i];
        }
      }
      return null;
    }

    /** Look up all dependencies.  A plugin with an error stays as it is; an unresolved dependency is
        an error and leaves the plugin in the state Read. */
    method ResolveDependencies(specs: seq<Spec>) returns (ok: bool)
      modifies `state, `hasError, `dependencySpecs
      ensures ok <==> !old(hasError) && old(state) in {Read, Resolved} && Resolvable(specs)
      ensures ok ==> state == Resolved && !hasError && ResolvedIn(specs)
      ensures !ok ==> hasError && dependencySpecs == old(dependencySpecs)
      ensures !ok ==> state == if !old(hasError) && old(state) == Resolved then Read else old(state)
    {
      if hasError {
        return false;
      }
      if state == Resolved {
        state := Read;
      }
      if state != Read {
        hasError := true;
        return false;
      }
      var resolvedDependencies: seq<Spec> := [];
      for k := 0 to |dependencies|
        invariant state == Read && dependencySpecs == old(dependencySpecs)
        invariant !hasError <==> forall j :: 0 <= j < k ==> Provided(specs, dependencies[j])
        invariant !hasError ==> |resolvedDependencies| == k
        invariant !hasError ==> forall j :: 0 <= j < k ==>
                  resolvedDependencies[j].IsFirstProvider(specs, dependencies[j])
      {
        var found := FindProvider(specs, dependencies[k]);
        if found == null {
          hasError := true;
        } else {
          resolvedDependencies := resolvedDependencies + [found];
        }
      }
      if hasError {
        return false;
      }
      dependencySpecs := resolvedDependencies;
      state := Resolved;
      return true;
    }
  }

  /** Between real versions a plugin provides a dependency exactly when the names agree up to case, and the wanted
      version is not after its version and not before the one it is compatible with. */
  lemma ProvidesIff(s: Spec, pluginName: string, v: Version)
    requires s.version.Version? && s.compatVersion.Version? && v.Version?
    ensures s.Provides(pluginName, v) <==>
            SameName(pluginName, s.name) && !Earlier(s.version, v) && !Earlier(v, s.compatVersion)
  {
    CompareIsBefore(s.version, v);
    CompareIsBefore(s.compatVersion, v);
  }

  /** A wanted string that is not a version is provided by name alone. */
  lemma ProvidedByName(s: Spec, pluginName: string)
    ensures s.Provides(pluginName, NotAVersion) <==> SameName(pluginName, s.name)
  {
  }

  /** A later version, or compatibility with an earlier one, loses no dependency. */
  lemma UpdateStillProvides(s: Spec, t: Spec, pluginName: string, v: Version)
    requires s.version.Version? && s.compatVersion.Version? && t.version.Version? && t.compatVersion.Version?
    requires t.name == s.name && !Earlier(t.version, s.version) && !Earlier(s.compatVersion, t.compatVersion)
    requires s.Provides(pluginName, v)
    ensures t.Provides(pluginName, v)
  {
    if v.Version? {
      CompareIsBefore(t.version, s.version);
      CompareIsBefore(s.compatVersion, t.compatVersion);
      VersionOrder(v, s.version, t.version);
      VersionOrder(t.compatVersion, s.compatVersion, v);
    }
  }

  /** SameName is not about case. */
  lemma NamesAgree(a: string, b: string)
    ensures SameName(a, b) <==> |a| == |b| && forall i :: 0 <= i < |a| ==> SameLetter(a[i], b[i])
  {
    forall i | 0 <= i < |a| && i < |b|
      ensures Lower(a[i]) == Lower(b[i]) <==> SameLetter(a[i], b[i])
    {
    }
  }

  /** The same character, or one of A to Z and the same of a to z. */
  predicate SameLetter(a: char, b: char) {
    a == b || ('A' <= a <= 'Z' && b as int == a as int + 32) || ('A' <= b <= 'Z' && a as int == b as int + 32)
  }
}
