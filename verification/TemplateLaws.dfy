/**
  What a template says, in terms of its text: the text of a variable in each of its three forms, of the two kinds of
  section, and which output is free of markup.
 */
module TemplateLaws {
  import opened Tags
  import opened HtmlEscape
  import opened Templates
  import opened TemplateScan
  import opened TemplateText

  /** What the renderer makes of a whole template. */
  function Rendered(template: string, stack: seq<Data>): Outcome {
    Eval(Scan(template, 0, |template|), stack)
  }

  lemma RenderedWritten(nodes: seq<Node>, stack: seq<Data>)
    requires Canonical(nodes)
    ensures Rendered(Written(nodes), stack) == Eval(nodes, stack)
  {
    WrittenIsScanned(nodes);
  }

  // ------------------------------------------------------------------ markup

  predicate NoMarkup(t: string) {
    forall k :: 0 <= k < |t| ==> t[k] !in {'<', '>', '"'}
  }

  /** Text without markup, and variables in double braces only, however deep. */
  predicate Safe(nodes: seq<Node>) {
    forall i :: 0 <= i < |nodes| ==>
      && (nodes[i].Literal? ==> NoMarkup(nodes[i].text))
      && (nodes[i].Variable? ==> nodes[i].mode == Escape)
      && (nodes[i].Section? ==> Safe(nodes[i].body))
  }

  lemma AndSafe(a: Outcome, b: Outcome)
    requires NoMarkup(a.text) && NoMarkup(b.text)
    ensures NoMarkup(a.And(b).text)
  {
  }

  /** Whatever the context holds, the output of such nodes has no markup. */
  lemma {:induction false} SafeEval(nodes: seq<Node>, stack: seq<Data>)
    requires Safe(nodes)
    ensures NoMarkup(Eval(nodes, stack).text)
    decreases nodes, 0, 0
  {
    if nodes != [] {
      SafeNode(nodes[0], stack);
      SafeEval(nodes[1..], stack);
      AndSafe(EvalNode(nodes[0], stack), Eval(nodes[1..], stack));
    }
  }

  lemma {:induction false} SafeNode(node: Node, stack: seq<Data>)
    requires Safe([node])
    ensures NoMarkup(EvalNode(node, stack).text)
    decreases node, 1, 0
  {
    assert [node][0] == node;
    var value := if node.Variable? || node.Section? then ValueOf(stack, node.key) else Nothing;
    if node.Variable? {
      EscapedHasNoMarkup(StringOf(value));
    } else if node.Section? {
      SafeEval(node.body, stack);
      SafeEval(node.body, stack + [value]);
      if value.List? {
        SafeEach(node.body, stack, value.items);
      }
    }
  }

  lemma {:induction false} SafeEach(body: seq<Node>, stack: seq<Data>, items: seq<Data>)
    requires Safe(body)
    ensures NoMarkup(EvalEach(body, stack, items).text)
    decreases body, 1, |items|
  {
    if items != [] {
      SafeEach(body, stack, items[..|items| - 1]);
      SafeEval(body, stack + [items[|items| - 1]]);
      AndSafe(EvalEach(body, stack, items[..|items| - 1]), Eval(body, stack + [items[|items| - 1]]));
    }
  }

  // ------------------------------------------------------------------ variables

  lemma CanonicalVariable(text: string, key: string, mode: EscapeMode, rest: seq<Node>)
    requires PlainText(text) && PlainKey(key) && Canonical(rest)
    ensures var nodes := [Literal(text), Variable(key, mode)] + rest;
            && Canonical(nodes) && Written(nodes) == text + VariableTag(key, mode) + Written(rest)
  {
    var nodes := [Literal(text), Variable(key, mode)] + rest;
    assert nodes[2..] == rest;
  }

  /** A variable behind plain text and before the rest of a template. */
  lemma RenderedVariable(text: string, key: string, mode: EscapeMode, rest: seq<Node>, stack: seq<Data>)
    requires PlainText(text) && PlainKey(key) && Canonical(rest)
    ensures Rendered(text + VariableTag(key, mode) + Written(rest), stack) ==
            Outcome(text + (Display(StringOf(ValueOf(stack, key)), mode) + Rendered(Written(rest), stack).text),
                    Rendered(Written(rest), stack).errorPos)
  {
    CanonicalVariable(text, key, mode, rest);
    RenderedWritten([Literal(text), Variable(key, mode)] + rest, stack);
    RenderedWritten(rest, stack);
    EvalTwo(text, Variable(key, mode), rest, stack);
  }

  lemma RenderedText(text: string, stack: seq<Data>)
    requires PlainText(text)
    ensures Rendered(text, stack) == Outcome(text, -1)
  {
    RenderedWritten([Literal(text)], stack);
    EvalOne(text, stack);
  }

  /** Between plain texts: {{k}} is the value with its special characters escaped, {{&k}} the value unescaped and
      {{{k}}} the value itself. */
  lemma VariableForms(a: string, key: string, b: string, stack: seq<Data>)
    requires PlainText(a) && PlainKey(key) && PlainText(b)
    ensures var value := StringOf(ValueOf(stack, key));
            && Rendered(a + ("{{" + key + "}}") + b, stack) == Outcome(a + (Escaped(value, SPECIAL) + b), -1)
            && Rendered(a + ("{{&" + key + "}}") + b, stack) == Outcome(a + (Unescaped(value) + b), -1)
            && Rendered(a + ("{{{" + key + "}}}") + b, stack) == Outcome(a + (value + b), -1)
  {
    RenderedText(b, stack);
    RenderedVariable(a, key, Escape, [Literal(b)], stack);
    RenderedVariable(a, key, Unescape, [Literal(b)], stack);
    RenderedVariable(a, key, Raw, [Literal(b)], stack);
    TagTexts(key);
  }

  lemma TagTexts(key: string)
    ensures VariableTag(key, Escape) == "{{" + key + "}}" && VariableTag(key, Unescape) == "{{&" + key + "}}"
    ensures VariableTag(key, Raw) == "{{{" + key + "}}}"
  {
  }

  // ------------------------------------------------------------------ sections

  lemma {:induction false} CanonicalSound(nodes: seq<Node>)
    requires Canonical(nodes)
    ensures Sound(nodes)
    decreases nodes
  {
    if |nodes| > 1 {
      CanonicalSound(nodes[2..]);
      if nodes[1].Section? {
        CanonicalSound(nodes[1].body);
      }
      assert forall i :: 2 <= i < |nodes| ==> nodes[i] == nodes[2..][i - 2];
    }
  }

  /** The text w rendered once for each item, in order, with the item as the innermost value. */
  function ForEach(w: string, stack: seq<Data>, items: seq<Data>): string {
    if items == [] then "" else Rendered(w, stack + [items[0]]).text + ForEach(w, stack, items[1..])
  }

  lemma {:induction false} ForEachLast(w: string, stack: seq<Data>, items: seq<Data>, last: Data)
    ensures ForEach(w, stack, items + [last]) == ForEach(w, stack, items) + Rendered(w, stack + [last]).text
  {
    if items == [] {
      assert [last][1..] == [];
    } else {
      assert (items + [last])[1..] == items[1..] + [last];
      ForEachLast(w, stack, items[1..], last);
      Associates(Rendered(w, stack + [items[0]]).text, ForEach(w, stack, items[1..]),
                 Rendered(w, stack + [last]).text);
    }
  }

  lemma {:induction false} EachIsForEach(body: seq<Node>, stack: seq<Data>, items: seq<Data>)
    requires Canonical(body)
    ensures EvalEach(body, stack, items) == Outcome(ForEach(Written(body), stack, items), -1)
    decreases |items|
  {
    if items != [] {
      var front, last := items[..|items| - 1], items[|items| - 1];
      EachIsForEach(body, stack, front);
      assert items == front + [last];
      ForEachLast(Written(body), stack, front, last);
      RenderedWritten(body, stack + [last]);
      CanonicalSound(body);
      SoundEval(body, stack + [last]);
    }
  }

  /** The contexts in which the body of a section is rendered: one for each item of a list, one for any other value. */
  function Contexts(value: Data): seq<Data> {
    if value.List? then value.items else [value]
  }

  lemma SectionNode(key: string, body: seq<Node>, stack: seq<Data>)
    requires Canonical(body)
    ensures var v, w := ValueOf(stack, key), Written(body);
            && EvalNode(Section(key, false, body), stack) ==
               Outcome(if IsFalse(v) then "" else ForEach(w, stack, Contexts(v)), -1)
            && EvalNode(Section(key, true, body), stack) ==
               Outcome(if IsFalse(v) then Rendered(w, stack).text else "", -1)
  {
    var v, w := ValueOf(stack, key), Written(body);
    CanonicalSound(body);
    SoundEval(body, stack);
    RenderedWritten(body, stack);
    if v.List? {
      EachIsForEach(body, stack, v.items);
    } else {
      SoundEval(body, stack + [v]);
      RenderedWritten(body, stack + [v]);
      assert [v][1..] == [];
    }
  }

  lemma CanonicalSection(text: string, key: string, inverted: bool, body: seq<Node>, rest: seq<Node>)
    requires PlainText(text) && PlainKey(key) && Canonical(body) && Canonical(rest)
    ensures var nodes := [Literal(text), Section(key, inverted, body)] + rest;
            && Canonical(nodes)
            && Written(nodes) == text + (StartTag(key, inverted) + Written(body) + Enclosed(['/'] + key))
            + Written(rest)
  {
    var nodes := [Literal(text), Section(key, inverted, body)] + rest;
    assert nodes[2..] == rest;
  }

  lemma RenderedSection(text: string, key: string, inverted: bool, body: seq<Node>, rest: seq<Node>, stack: seq<Data>)
    requires PlainText(text) && PlainKey(key) && Canonical(body) && Canonical(rest)
    ensures var tag := StartTag(key, inverted) + Written(body) + Enclosed(['/'] + key);
            Rendered(text + tag + Written(rest), stack) ==
            Outcome(text + (EvalNode(Section(key, inverted, body), stack).text + Rendered(Written(rest), stack).text),
                    Rendered(Written(rest), stack).errorPos)
  {
    CanonicalSection(text, key, inverted, body, rest);
    RenderedWritten([Literal(text), Section(key, inverted, body)] + rest, stack);
    RenderedWritten(rest, stack);
    SectionNode(key, body, stack);
    EvalTwo(text, Section(key, inverted, body), rest, stack);
  }

  /** Of {{#k}}w{{/k}} and {{^k}}w{{/k}} exactly one renders w: the second, once, when the value of k is false; else
      the first, once for each item of a list in the list's order, with the item innermost on the stack. */
  lemma SectionForms(a: string, key: string, body: seq<Node>, b: string, stack: seq<Data>)
    requires PlainText(a) && PlainKey(key) && Canonical(body) && PlainText(b)
    ensures var v, w := ValueOf(stack, key), Written(body);
            && Rendered(a + ("{{#" + key + "}}" + w + ("{{/" + key + "}}")) + b, stack) ==
               Outcome(a + ((if IsFalse(v) then "" else ForEach(w, stack, Contexts(v))) + b), -1)
            && Rendered(a + ("{{^" + key + "}}" + w + ("{{/" + key + "}}")) + b, stack) ==
               Outcome(a + ((if IsFalse(v) then Rendered(w, stack).text else "") + b), -1)
  {
    RenderedText(b, stack);
    SectionNode(key, body, stack);
    RenderedSection(a, key, false, body, [Literal(b)], stack);
    RenderedSection(a, key, true, body, [Literal(b)], stack);
    SectionTexts(key);
  }

  lemma SectionTexts(key: string)
    ensures StartTag(key, false) == "{{#" + key + "}}" && StartTag(key, true) == "{{^" + key + "}}"
    ensures Enclosed(['/'] + key) == "{{/" + key + "}}"
  {
  }

  // ------------------------------------------------------------------ values

  /** The values that count as false. */
  lemma FalseValues(v: Data)
    ensures IsFalse(v) <==> v in {Nothing, Flag(false), Text(""), List([]), Map(map[])}
    ensures IsFalse(v) ==> StringOf(v) == ""
  {
  }

  function JoinedKey(parts: seq<string>): string
    requires parts != []
  {
    if |parts| == 1 then parts[0] else parts[0] + "." + JoinedKey(parts[1..])
  }

  /** The parts of a key are what the dots separate. */
  lemma {:induction false} SplitAtDots(key: string)
    ensures JoinedKey(Split(key)) == key
    ensures forall i :: 0 <= i < |Split(key)| ==> Without(Split(key)[i], '.')
  {
    if key != "" {
      var rest := Split(key[1..]);
      SplitAtDots(key[1..]);
      assert key == [key[0]] + key[1..];
      if key[0] == '.' {
        assert Split(key)[1..] == rest;
      } else {
        JoinedFirst(key[0], rest);
        assert Without([key[0]] + rest[0], '.');
      }
    }
  }

  lemma JoinedFirst(c: char, parts: seq<string>)
    requires parts != []
    ensures JoinedKey([[c] + parts[0]] + parts[1..]) == [c] + JoinedKey(parts)
  {
    var longer := [[c] + parts[0]] + parts[1..];
    assert longer[1..] == parts[1..];
    if |parts| > 1 {
      assert [c] + parts[0] + "." + JoinedKey(parts[1..]) == [c] + (parts[0] + "." + JoinedKey(parts[1..]));
    }
  }

  /** A path leads through the maps one key after the other. */
  lemma {:induction false} PathSteps(value: Data, path: seq<string>, key: string)
    requires path != []
    ensures KeyPathValue(value, [key]) ==
            if value.Map? && key in value.fields then value.fields[key] else Nothing
    ensures KeyPathValue(value, path + [key]) == KeyPathValue(KeyPathValue(value, path), [key])
    decreases |path|
  {
    assert (path + [key])[1..] == path[1..] + [key];
    if |path| > 1 {
      var first := MapValue(value, path[0]);
      PathSteps(first, path[1..], key);
    } else {
      assert path[1..] + [key] == [key];
    }
  }

  /** The value is that of the innermost entry which has one. */
  lemma {:induction false} Innermost(stack: seq<Data>, path: seq<string>, i: nat)
    requires i < |stack| && !KeyPathValue(stack[i], path).Nothing?
    requires forall j :: i < j < |stack| ==> KeyPathValue(stack[j], path).Nothing?
    ensures Lookup(stack, path) == KeyPathValue(stack[i], path)
  {
    if i < |stack| - 1 {
      Innermost(stack[..|stack| - 1], path, i);
    }
  }

  lemma {:induction false} NotOnStack(stack: seq<Data>, path: seq<string>)
    requires forall j :: 0 <= j < |stack| ==> KeyPathValue(stack[j], path).Nothing?
    ensures Lookup(stack, path) == Nothing
  {
    if stack != [] {
      NotOnStack(stack[..|stack| - 1], path);
    }
  }

  /** The innermost value: the point is the entry on top of the stack, and a key without a point is looked up in the
      innermost map that has it. */
  lemma InnermostKey(stack: seq<Data>, key: string, i: nat)
    requires i < |stack|
    ensures ValueOf(stack, ".") == stack[|stack| - 1]
    ensures Without(key, '.') && stack[i].Map? && key in stack[i].fields && stack[i].fields[key] != Nothing
            && (forall j :: i < j < |stack| ==> !stack[j].Map? || key !in stack[j].fields) ==>
              ValueOf(stack, key) == stack[i].fields[key]
  {
    if Without(key, '.') && stack[i].Map? && key in stack[i].fields && stack[i].fields[key] != Nothing
       && forall j :: i < j < |stack| ==> !stack[j].Map? || key !in stack[j].fields {
      SplitPlain(key);
      Innermost(stack, [key], i);
    }
  }

  lemma {:induction false} SplitPlain(key: string)
    requires Without(key, '.')
    ensures Split(key) == [key]
  {
    if key != "" {
      SplitPlain(key[1..]);
      assert key == [key[0]] + key[1..];
    }
  }
}
