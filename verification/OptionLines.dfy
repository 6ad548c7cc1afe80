/**
  Whole command lines: a line written from a list of options is read as these options, one after the other, and
  what the parser then holds.
 */
module OptionLines {
  import opened PluginSpecs
  import opened OptionsParser

  /** What can stand on a command line.  A Flag takes no argument, a Setting takes one. */
  datatype Item = NoLoad(name: string) | Test(name: string) | Flag(option: string)
                | Setting(option: string, value: string) | Word(text: string)

  function Tokens(item: Item): (t: seq<string>)
    ensures |t| == 1 || |t| == 2
  {
    match item
    case NoLoad(name) => ["-noload", name]
    case Test(name) => ["-test", name]
    case Flag(option) => [option]
    case Setting(option, value) => [option, value]
    case Word(text) => [text]
  }

  function LineOf(items: seq<Item>): seq<string> {
    if items == [] then [] else LineOf(items[..|items| - 1]) + Tokens(items[|items| - 1])
  }

  predicate Reserved(word: string) {
    word == "--" || word == "-noload" || word == "-test"
  }

  /** Whether an option of the application, or else one of the plugins, takes an argument. */
  predicate TakesArgument(option: string, appOptions: map<string, bool>, specs: seq<Spec>) {
    if option in appOptions then appOptions[option]
    else var s := FirstWithOption(specs, option); s != null && s.options[option]
  }

  predicate IsOption(option: string, appOptions: map<string, bool>, specs: seq<Spec>) {
    !Reserved(option) && (option in appOptions || FirstWithOption(specs, option) != null)
  }

  /** The item means something, given the options of the application and the plugins that are left. */
  predicate Fits(item: Item, appOptions: map<string, bool>, specs: seq<Spec>) {
    match item
    case NoLoad(name) => FirstNamed(specs, name) != null
    case Test(name) => FirstNamed(specs, name) != null
    case Flag(option) => IsOption(option, appOptions, specs) && !TakesArgument(option, appOptions, specs)
    case Setting(option, _) => IsOption(option, appOptions, specs) && TakesArgument(option, appOptions, specs)
    case Word(text) =>
      !Reserved(text) && !IsOption(text, appOptions, specs) && (text == "" || text[0] != '-')
  }

  /** What an item adds to the progress. */
  function Effect(item: Item, appOptions: map<string, bool>, p: Progress): Progress {
    match item
    case NoLoad(name) => Unloaded(p, name)
    case Test(name) =>
      var s := FirstNamed(p.specs, name);
      if s == null then p else p.(tests := p.tests + [s])
    case Flag(option) => OptionEffect(option, [], appOptions, p)
    case Setting(option, value) => OptionEffect(option, [value], appOptions, p)
    case Word(text) => p.(arguments := p.arguments + [text])
  }

  function OptionEffect(option: string, value: seq<string>, appOptions: map<string, bool>, p: Progress): Progress {
    if option in appOptions then p.(found := p.found[option := if value == [] then "" else value[0]])
    else
      var s := FirstWithOption(p.specs, option);
      if s == null then p
      else if value == [] then p.(given := p.given + [(s, option)])
      else p.(given := p.given + [(s, option)] + [(s, value[0])])
  }

  function After(items: seq<Item>, appOptions: map<string, bool>, p: Progress): Progress {
    if items == [] then p else Effect(items[|items| - 1], appOptions, After(items[..|items| - 1], appOptions, p))
  }

  predicate FitAll(items: seq<Item>, appOptions: map<string, bool>, p: Progress) {
    items == [] || (FitAll(items[..|items| - 1], appOptions, p)
                    && Fits(items[|items| - 1], appOptions, After(items[..|items| - 1], appOptions, p).specs))
  }

  // ------------------------------------------------------------------ reading a line

  predicate HoldsAt(args: seq<string>, i: nat, tokens: seq<string>) {
    i + |tokens| <= |args| && forall k :: 0 <= k < |tokens| ==> args[i + k] == tokens[k]
  }

  /** At position i the outcome is that behind the item. */
  predicate ReadsItem(outcome: (nat, Progress) -> Progress, args: seq<string>, appOptions: map<string, bool>,
                      i: nat, p: Progress, item: Item) {
    HoldsAt(args, i, Tokens(item)) && Fits(item, appOptions, p.specs) ==>
      outcome(i, p) == outcome(i + |Tokens(item)|, Effect(item, appOptions, p))
  }

  lemma StepItem(args: seq<string>, appOptions: map<string, bool>, i: nat, p: Progress, item: Item)
    requires HoldsAt(args, i, Tokens(item)) && Fits(item, appOptions, p.specs)
    ensures Step(args, appOptions, i + 1, p) == (Effect(item, appOptions, p), i + |Tokens(item)|)
  {
    assert args[i] == Tokens(item)[0];
    if |Tokens(item)| == 2 {
      assert args[i + 1] == Tokens(item)[1];
    }
  }

  lemma WalkReadsItem(outcome: (nat, Progress) -> Progress, args: seq<string>, appOptions: map<string, bool>,
                      i: nat, p: Progress, item: Item)
    requires forall k: nat, r :: k <= |args| ==> outcome(k, r) == Walk(args, appOptions, k, r)
    ensures ReadsItem(outcome, args, appOptions, i, p, item)
  {
    if HoldsAt(args, i, Tokens(item)) && Fits(item, appOptions, p.specs) {
      StepItem(args, appOptions, i, p, item);
      WalkStep(args, appOptions, i, p, Effect(item, appOptions, p), i + |Tokens(item)|);
    }
  }

  lemma HoldsParts(args: seq<string>, i: nat, a: seq<string>, b: seq<string>)
    requires HoldsAt(args, i, a + b)
    ensures HoldsAt(args, i, a) && HoldsAt(args, i + |a|, b)
  {
    forall k | 0 <= k < |a|
      ensures args[i + k] == a[k]
    {
      assert (a + b)[k] == a[k];
    }
    forall k | 0 <= k < |b|
      ensures args[i + |a| + k] == b[k]
    {
      assert (a + b)[|a| + k] == b[k];
    }
  }

  lemma {:induction false} ItemsRead(outcome: (nat, Progress) -> Progress, args: seq<string>,
                                     appOptions: map<string, bool>, items: seq<Item>, p: Progress)
    requires forall i: nat, r, item :: ReadsItem(outcome, args, appOptions, i, r, item)
    requires HoldsAt(args, 1, LineOf(items)) && FitAll(items, appOptions, p)
    ensures outcome(1, p) == outcome(1 + |LineOf(items)|, After(items, appOptions, p))
  {
    if items != [] {
      var n := |items| - 1;
      HoldsParts(args, 1, LineOf(items[..n]), Tokens(items[n]));
      ItemsRead(outcome, args, appOptions, items[..n], p);
      assert ReadsItem(outcome, args, appOptions, 1 + |LineOf(items[..n])|, After(items[..n], appOptions, p), items[n]);
    }
  }

  /** A line of items that fit, and whatever follows, is read item by item. */
  lemma LineRead(appOptions: map<string, bool>, program: string, items: seq<Item>, tail: seq<string>, p: Progress)
    requires FitAll(items, appOptions, p)
    ensures var args := [program] + LineOf(items) + tail;
            Walk(args, appOptions, 1, p) ==
            Walk(args, appOptions, 1 + |LineOf(items)|, After(items, appOptions, p))
  {
    var args := [program] + LineOf(items) + tail;
    forall k | 0 <= k < |LineOf(items)|
      ensures args[1 + k] == LineOf(items)[k]
    {
    }
    LineReadIn(appOptions, args, items, p);
  }

  lemma LineReadIn(appOptions: map<string, bool>, args: seq<string>, items: seq<Item>, p: Progress)
    requires HoldsAt(args, 1, LineOf(items)) && FitAll(items, appOptions, p)
    ensures Walk(args, appOptions, 1, p) == Walk(args, appOptions, 1 + |LineOf(items)|, After(items, appOptions, p))
  {
    var outcome := (i: nat, r: Progress) => if i <= |args| then Walk(args, appOptions, i, r) else r;
    forall i: nat, r: Progress, item: Item
      ensures ReadsItem(outcome, args, appOptions, i, r, item)
    {
      WalkReadsItem(outcome, args, appOptions, i, r, item);
    }
    ItemsRead(outcome, args, appOptions, items, p);
    assert outcome(1, p) == Walk(args, appOptions, 1, p);
  }

  /** Without anything behind it, a line of items that fit is read without an error of its own. */
  lemma LineOutcome(appOptions: map<string, bool>, program: string, items: seq<Item>, p: Progress)
    requires FitAll(items, appOptions, p)
    ensures Walk([program] + LineOf(items), appOptions, 1, p) == After(items, appOptions, p)
  {
    var args := [program] + LineOf(items);
    LineReadIn(appOptions, args, items, p);
  }

  /** What cannot begin an item: a name that no plugin has, an option without its argument, or an unknown option. */
  predicate Misfit(tail: seq<string>, appOptions: map<string, bool>, specs: seq<Spec>) {
    tail != [] &&
    if tail[0] == "-noload" || tail[0] == "-test" then |tail| == 1 || FirstNamed(specs, tail[1]) == null
    else if Reserved(tail[0]) then false
    else if IsOption(tail[0], appOptions, specs) then |tail| == 1 && TakesArgument(tail[0], appOptions, specs)
    else tail[0] != "" && tail[0][0] == '-'
  }

  /** Behind such items that is an error, which ends the reading; the plugins stay as they are then. */
  lemma LineError(appOptions: map<string, bool>, program: string, items: seq<Item>, tail: seq<string>, p: Progress)
    requires FitAll(items, appOptions, p) && Misfit(tail, appOptions, After(items, appOptions, p).specs)
    ensures var r := Walk([program] + LineOf(items) + tail, appOptions, 1, p);
            && r.hasError && r.specs == After(items, appOptions, p).specs
            && r.tests == After(items, appOptions, p).tests && r.arguments == After(items, appOptions, p).arguments
  {
    var args, i := [program] + LineOf(items) + tail, 1 + |LineOf(items)|;
    LineRead(appOptions, program, items, tail, p);
    assert args[i..] == tail;
    assert args[i] == tail[0] && (|tail| > 1 ==> args[i + 1] == tail[1]);
    StepMisfit(args, appOptions, i, After(items, appOptions, p), tail);
    var (q, next) := Step(args, appOptions, i + 1, After(items, appOptions, p));
    WalkStep(args, appOptions, i, After(items, appOptions, p), q, next);
  }

  lemma StepMisfit(args: seq<string>, appOptions: map<string, bool>, i: nat, p: Progress, tail: seq<string>)
    requires i + |tail| == |args| && Misfit(tail, appOptions, p.specs)
    requires args[i] == tail[0] && (|tail| > 1 ==> args[i + 1] == tail[1])
    ensures var (q, next) := Step(args, appOptions, i + 1, p);
            next == -1 && q.hasError && q.specs == p.specs && q.tests == p.tests && q.arguments == p.arguments
  {
  }

  // ------------------------------------------------------------------ what the parser holds after a line

  /** The item sets the option of the application. */
  predicate Sets(item: Item, option: string) {
    (item.Flag? && item.option == option) || (item.Setting? && item.option == option)
  }

  lemma FoundAfter(item: Item, appOptions: map<string, bool>, p: Progress, option: string)
    requires option in appOptions
    ensures var q := Effect(item, appOptions, p).found;
            if Sets(item, option) then option in q && q[option] == if item.Setting? then item.value else ""
            else (option in q <==> option in p.found) && (option in q ==> q[option] == p.found[option])
  {
  }

  lemma AfterLast(items: seq<Item>, appOptions: map<string, bool>, p: Progress)
    requires items != []
    ensures After(items, appOptions, p) ==
            Effect(items[|items| - 1], appOptions, After(items[..|items| - 1], appOptions, p))
  {
  }

  /** The last setting of an option of the application is the one that is found. */
  lemma {:induction false} FoundLast(items: seq<Item>, appOptions: map<string, bool>, p: Progress, k: nat,
                                     option: string)
    requires option in appOptions && k < |items| && Sets(items[k], option)
    requires forall j :: k < j < |items| ==> !Sets(items[j], option)
    ensures option in After(items, appOptions, p).found
    ensures After(items, appOptions, p).found[option] == if items[k].Setting? then items[k].value else ""
  {
    var n := |items| - 1;
    AfterLast(items, appOptions, p);
    FoundAfter(items[n], appOptions, After(items[..n], appOptions, p), option);
    if k < n {
      FoundLast(items[..n], appOptions, p, k, option);
    }
  }

  /** An option that is not on the line is not found. */
  lemma {:induction false} NotFound(items: seq<Item>, appOptions: map<string, bool>, p: Progress, option: string)
    requires option in appOptions && forall j :: 0 <= j < |items| ==> !Sets(items[j], option)
    ensures option in After(items, appOptions, p).found <==> option in p.found
  {
    if items != [] {
      var n := |items| - 1;
      NotFound(items[..n], appOptions, p, option);
      FoundAfter(items[n], appOptions, After(items[..n], appOptions, p), option);
    }
  }

  function TestItems(names: seq<string>): (items: seq<Item>)
    ensures |items| == |names|
  {
    if names == [] then [] else TestItems(names[..|names| - 1]) + [Test(names[|names| - 1])]
  }

  /** The plugins to test are those named, in order. */
  lemma {:induction false} TestsInOrder(names: seq<string>, appOptions: map<string, bool>, p: Progress)
    requires forall j :: 0 <= j < |names| ==> FirstNamed(p.specs, names[j]) != null
    ensures FitAll(TestItems(names), appOptions, p) && After(TestItems(names), appOptions, p).specs == p.specs
    ensures NamedTests(p.specs, names, p.tests, After(TestItems(names), appOptions, p).tests)
  {
    if names != [] {
      var n := |names| - 1;
      var items := TestItems(names);
      var q, s := After(TestItems(names[..n]), appOptions, p), FirstNamed(p.specs, names[n]);
      TestsInOrder(names[..n], appOptions, p);
      TestItemsLast(names);
      AfterLast(items, appOptions, p);
      NamedMore(p.specs, names, p.tests, q.tests, s);
      assert After(items, appOptions, p) == q.(tests := q.tests + [s]);
    }
  }

  ghost predicate NamedTests(specs: seq<Spec>, names: seq<string>, before: seq<Spec>, tests: seq<Spec>) {
    && |tests| == |before| + |names| && tests[..|before|] == before
    && forall j :: 0 <= j < |names| ==> tests[|before| + j] == FirstNamed(specs, names[j])
  }

  lemma NamedMore(specs: seq<Spec>, names: seq<string>, before: seq<Spec>, tests: seq<Spec>, s: Spec)
    requires names != [] && FirstNamed(specs, names[|names| - 1]) == s
    requires NamedTests(specs, names[..|names| - 1], before, tests)
    ensures NamedTests(specs, names, before, tests + [s])
  {
    forall j | 0 <= j < |names|
      ensures (tests + [s])[|before| + j] == FirstNamed(specs, names[j])
    {
      if j < |names| - 1 {
        assert names[..|names| - 1][j] == names[j];
      }
    }
  }

  lemma TestItemsLast(names: seq<string>)
    requires names != []
    ensures var items, n := TestItems(names), |names| - 1;
            items[..n] == TestItems(names[..n]) && items[n] == Test(names[n])
  {
  }

  /** A plugin is given its option, and the argument if there is one, behind what it was given before; the other
      plugins are given nothing. */
  lemma GivenLast(items: seq<Item>, appOptions: map<string, bool>, p: Progress, s: Spec, t: Spec)
    requires items != []
    requires var item := items[|items| - 1];
             && (item.Flag? || item.Setting?) && item.option !in appOptions
             && FirstWithOption(After(items[..|items| - 1], appOptions, p).specs, item.option) == s
    ensures var item, before := items[|items| - 1], After(items[..|items| - 1], appOptions, p).given;
            GivenTo(After(items, appOptions, p).given, t) ==
            GivenTo(before, t) + if t != s then [] else if item.Setting? then [item.option, item.value]
              else [item.option]
  {
    var item, before := items[|items| - 1], After(items[..|items| - 1], appOptions, p).given;
    GivenMore(before, s, item.option, t);
    if item.Setting? {
      GivenMore(before + [(s, item.option)], s, item.value, t);
    }
  }

  lemma GivenMore(given: seq<(Spec, string)>, s: Spec, argument: string, t: Spec)
    ensures GivenTo(given + [(s, argument)], t) == GivenTo(given, t) + if t == s then [argument] else []
  {
    var more := given + [(s, argument)];
    assert more[..|more| - 1] == given;
  }

  // ------------------------------------------------------------------ which plugin

  /** The first plugin of the list with a name, and with an option. */
  lemma {:induction false} FirstIs(specs: seq<Spec>, word: string, i: nat)
    requires i < |specs|
    ensures specs[i].name == word && (forall j :: 0 <= j < i ==> specs[j].name != word) ==>
              FirstNamed(specs, word) == specs[i]
    ensures word in specs[i].options && (forall j :: 0 <= j < i ==> word !in specs[j].options) ==>
              FirstWithOption(specs, word) == specs[i]
  {
    if i > 0 {
      FirstIs(specs[1..], word, i - 1);
      assert forall j :: 0 <= j < i - 1 ==> specs[1..][j] == specs[j + 1];
    }
  }
}
