/**
  The reference meaning of a template: parse the text once into a tree, then evaluate the tree in a
  stack of context values.
 */
module Templates {
  import opened Tags
  import opened TagOrder
  import opened HtmlEscape

  // ------------------------------------------------------------------ context values

  datatype Data = Nothing | Flag(b: bool) | Text(s: string) | List(items: seq<Data>) | Map(fields: map<string, Data>)

  function Split(key: string): (parts: seq<string>)
    ensures |parts| >= 1
  {
    if key == "" then [""]
    else
      var rest := Split(key[1..]);
      if key[0] == '.' then [""] + rest else [[key[0]] + rest[0]] + rest[1..]
  }

  function MapValue(value: Data, key: string): Data {
    if value.Map? && key in value.fields then value.fields[key] else Nothing
  }

  function KeyPathValue(value: Data, keyPath: seq<string>): Data {
    if |keyPath| > 1 then
      var first := MapValue(value, keyPath[0]);
      if first.Nothing? then Nothing else KeyPathValue(first, keyPath[1..])
    else if keyPath != [] then MapValue(value, keyPath[0])
    else Nothing
  }

  /** The innermost value on the stack for a path. */
  function Lookup(stack: seq<Data>, keyPath: seq<string>): Data {
    if stack == [] then Nothing
    else
      var value := KeyPathValue(stack[|stack| - 1], keyPath);
      if value.Nothing? then Lookup(stack[..|stack| - 1], keyPath) else value
  }

  function ValueOf(stack: seq<Data>, key: string): Data {
    if key == "." && stack != [] then stack[|stack| - 1] else Lookup(stack, Split(key))
  }

  predicate IsFalse(value: Data) {
    match value
    case Nothing => true
    case Flag(b) => !b
    case Text(s) => s == ""
    case List(items) => items == []
    case Map(fields) => fields == map[]
  }

  function StringOf(value: Data): string {
    match value
    case Flag(b) => if b then "true" else ""
    case Text(s) => s
    case _ => ""
  }

  // ------------------------------------------------------------------ trees

  /** A Remark is a comment, or a partial in a context that resolves no partials.  At a Broken node rendering
      ends with an error at the position pos. */
  datatype Node =
    | Literal(text: string)
    | Variable(key: string, mode: EscapeMode)
    | Remark
    | Section(key: string, inverted: bool, body: seq<Node>)
    | Broken(pos: nat)

  function Display(value: string, mode: EscapeMode): string {
    match mode
    case Escape => Escaped(value, SPECIAL)
    case Unescape => Unescaped(value)
    case Raw => value
  }

  /** The text up to an error and the position of the error, or -1. */
  datatype Outcome = Outcome(text: string, errorPos: int) {
    function And(rest: Outcome): Outcome {
      if errorPos != -1 then this else Outcome(text + rest.text, rest.errorPos)
    }
  }

  /** The text of a list of nodes in a context, up to the first Broken node that is entered. */
  function Eval(nodes: seq<Node>, stack: seq<Data>): Outcome
    decreases nodes, 0, 0
  {
    if nodes == [] then Outcome("", -1) else EvalNode(nodes[0], stack).And(Eval(nodes[1..], stack))
  }

  function EvalNode(node: Node, stack: seq<Data>): Outcome
    decreases node, 1, 0
  {
    match node
    case Literal(text) => Outcome(text, -1)
    case Remark => Outcome("", -1)
    case Variable(key, mode) => Outcome(Display(StringOf(ValueOf(stack, key)), mode), -1)
    case Broken(pos) => Outcome("", pos)
    case Section(key, inverted, body) =>
      var value := ValueOf(stack, key);
      if inverted then if IsFalse(value) then Eval(body, stack) else Outcome("", -1)
      else if IsFalse(value) then Outcome("", -1)
      else if value.List? then EvalEach(body, stack, value.items)
      else Eval(body, stack + [value])
  }

  /** The body once for each item. */
  function EvalEach(body: seq<Node>, stack: seq<Data>, items: seq<Data>): Outcome
    decreases body, 1, |items|
  {
    if items == [] then Outcome("", -1)
    else EvalEach(body, stack, items[..|items| - 1]).And(Eval(body, stack + [items[|items| - 1]]))
  }

  /** The first two nodes of a list. */
  lemma EvalTwo(text: string, n: Node, rest: seq<Node>, stack: seq<Data>)
    ensures Eval([Literal(text), n] + rest, stack) ==
            Outcome(text, -1).And(EvalNode(n, stack)).And(Eval(rest, stack))
  {
    var nodes := [Literal(text), n] + rest;
    assert nodes[1..] == [n] + rest && nodes[1..][1..] == rest;
    AndAssociates(Outcome(text, -1), EvalNode(n, stack), Eval(rest, stack));
  }

  lemma EvalOne(text: string, stack: seq<Data>)
    ensures Eval([Literal(text)], stack) == Outcome(text, -1)
  {
    assert [Literal(text)][1..] == [];
  }

  lemma AndAssociates(a: Outcome, b: Outcome, c: Outcome)
    ensures a.And(b.And(c)) == a.And(b).And(c)
  {
    assert a.text + (b.text + c.text) == (a.text + b.text) + c.text;
  }

  /** No Broken node, however deep. */
  predicate Sound(nodes: seq<Node>) {
    forall i :: 0 <= i < |nodes| ==> !nodes[i].Broken? && (nodes[i].Section? ==> Sound(nodes[i].body))
  }

  /** Such nodes have no error in any context. */
  lemma {:induction false} SoundEval(nodes: seq<Node>, stack: seq<Data>)
    requires Sound(nodes)
    ensures Eval(nodes, stack).errorPos == -1
    decreases nodes, 0, 0
  {
    if nodes != [] {
      if nodes[0].Section? {
        SoundSection(nodes[0].body, stack, nodes[0]);
      }
      SoundEval(nodes[1..], stack);
    }
  }

  lemma {:induction false} SoundSection(body: seq<Node>, stack: seq<Data>, node: Node)
    requires node.Section? && node.body == body && Sound(body)
    ensures EvalNode(node, stack).errorPos == -1
    decreases body, 2, 0
  {
    var value := ValueOf(stack, node.key);
    SoundEval(body, stack);
    SoundEval(body, stack + [value]);
    if value.List? {
      SoundEach(body, stack, value.items);
    }
  }

  lemma {:induction false} SoundEach(body: seq<Node>, stack: seq<Data>, items: seq<Data>)
    requires Sound(body)
    ensures EvalEach(body, stack, items).errorPos == -1
    decreases body, 1, |items|
  {
    if items != [] {
      SoundEach(body, stack, items[..|items| - 1]);
      SoundEval(body, stack + [items[|items| - 1]]);
    }
  }

  // ------------------------------------------------------------------ parsing

  /** The nodes up to the tag that closes them, an end tag or no tag at all; or a template that is not
      well formed. */
  datatype Parsed = Malformed | Parsed(nodes: seq<Node>, close: Tag)

  /** QString::mid from i on, j - i characters: with a length that is negative or too large, all of the rest. */
  function Mid(s: string, i: nat, j: nat): string {
    if i <= j <= |s| then s[i..j] else if i <= |s| then s[i..] else ""
  }

  /** Parse from a position to the end tag that belongs to an enclosing section. */
  function Parse(s: string, pos: nat): (p: Parsed)
    requires Boundary(s, pos)
    ensures p.Parsed? && p.close.kind != Null ==> ClosesAfter(s, pos, p.close)
    decreases |s| + 2 - pos, 0
  {
    var t := FindTag(s, pos, |s|);
    FoundTag(s, pos, |s|);
    if t.kind == Null then Parsed([Literal(Mid(s, pos, |s|))], t)
    else
      var before := Literal(Mid(s, pos, t.start));
      match t.kind
      case SectionEnd => Parsed([before], t)
      case Value => Before([before, Variable(t.key, t.mode)], Parse(s, t.end))
      case Comment => Before([before, Remark], Parse(s, t.end))
      case Partial => Before([before, Remark], Parse(s, t.end))
      case SectionStart => ParseSection(s, t, before, false)
      case InvertedSectionStart => ParseSection(s, t, before, true)
      case _ => Malformed
  }

  /** The end tag c lies behind pos. */
  predicate ClosesAfter(s: string, pos: nat, c: Tag) {
    c.kind == SectionEnd && pos <= c.start < c.end <= |s| + 1 && c.start <= |s| && Boundary(s, c.end)
  }

  /** Parse a section from its start tag, and what follows it. */
  function ParseSection(s: string, t: Tag, before: Node, inverted: bool): (p: Parsed)
    requires Boundary(s, t.end) && 0 < t.end <= |s| + 1
    ensures p.Parsed? && p.close.kind != Null ==> ClosesAfter(s, t.end, p.close)
    decreases |s| + 2 - t.end, 1
  {
    var body := Parse(s, t.end);
    if body.Malformed? || body.close.kind != SectionEnd || body.close.key != t.key then Malformed
    else Before([before, Section(t.key, inverted, body.nodes)], Parse(s, body.close.end))
  }

  function Before(nodes: seq<Node>, rest: Parsed): Parsed {
    if rest.Malformed? then Malformed else Parsed(nodes + rest.nodes, rest.close)
  }
}
