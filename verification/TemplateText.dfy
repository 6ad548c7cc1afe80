/**
  Writing a tree as a template, and reading it back: for trees of plain text, variables and sections on one line
  the parser recovers the tree.
 */
module TemplateText {
  import opened Tags
  import opened TagOrder
  import opened Templates
  import opened TemplateScan

  // ------------------------------------------------------------------ writing a tree

  /** Text without braces and line breaks. */
  predicate PlainText(t: string) {
    forall k :: 0 <= k < |t| ==> t[k] != '{' && t[k] != '}' && t[k] != '\n'
  }

  /** A word that does not begin like a special tag. */
  predicate PlainKey(key: string) {
    key != "" && key[0] !in {'#', '^', '/', '!', '>', '=', '&'} && PlainText(key)
    && forall k :: 0 <= k < |key| ==> !IsSpace(key[k])
  }

  /** Text, and tags with text between them. */
  predicate Canonical(nodes: seq<Node>) {
    nodes != [] && nodes[0].Literal? && PlainText(nodes[0].text)
    && (|nodes| == 1 || (|nodes| >= 3 && CanonicalTag(nodes[1]) && Canonical(nodes[2..])))
  }

  predicate CanonicalTag(n: Node) {
    match n
    case Variable(key, _) => PlainKey(key)
    case Section(key, _, body) => PlainKey(key) && Canonical(body)
    case _ => false
  }

  function Written(nodes: seq<Node>): string
    requires Canonical(nodes)
  {
    if |nodes| == 1 then nodes[0].text else nodes[0].text + WrittenTag(nodes[1]) + Written(nodes[2..])
  }

  function WrittenTag(n: Node): string
    requires CanonicalTag(n)
  {
    match n
    case Variable(key, mode) => VariableTag(key, mode)
    case Section(key, inverted, body) =>
      StartTag(key, inverted) + Written(body) + Enclosed(['/'] + key)
  }

  function VariableTag(key: string, mode: EscapeMode): string {
    match mode
    case Escape => Enclosed(key)
    case Unescape => Enclosed(['&'] + key)
    case Raw => Enclosed(['{'] + key) + "}"
  }

  function StartTag(key: string, inverted: bool): string {
    Enclosed([if inverted then '^' else '#'] + key)
  }

  function Enclosed(inner: string): string {
    "{{" + inner + "}}"
  }

  // ------------------------------------------------------------------ finding what was written

  /** s holds w at position i. */
  predicate At(s: string, i: nat, w: string) {
    i + |w| <= |s| && forall k :: 0 <= k < |w| ==> s[i + k] == w[k]
  }

  lemma AtParts(s: string, i: nat, a: string, b: string)
    requires At(s, i, a + b)
    ensures At(s, i, a) && At(s, i + |a|, b)
  {
    forall k | 0 <= k < |a|
      ensures s[i + k] == a[k]
    {
      assert (a + b)[k] == a[k];
    }
    forall k | 0 <= k < |b|
      ensures s[i + |a| + k] == b[k]
    {
      assert (a + b)[|a| + k] == b[k];
    }
  }

  lemma AtChar(s: string, i: nat, w: string, k: nat)
    requires At(s, i, w) && k < |w|
    ensures s[i + k] == w[k]
  {
  }

  lemma MidIs(s: string, i: nat, text: string)
    requires At(s, i, text)
    ensures Mid(s, i, i + |text|) == text
  {
  }

  lemma {:induction false} FirstMarker(s: string, pos: nat, i: nat, marker: string)
    requires pos <= i && marker != "" && HasAt(s, marker, i)
    requires forall k :: pos <= k < i ==> s[k] != marker[0]
    ensures IndexOf(s, marker, pos) == i
    decreases i - pos
  {
    if pos < i {
      assert s[pos + 0] != marker[0];
      FirstMarker(s, pos + 1, i, marker);
    }
  }

  lemma {:induction false} NoMarker(s: string, pos: nat, marker: string)
    requires pos <= |s| && |marker| == 2 && forall k :: pos <= k < |s| ==> s[k] != marker[0]
    ensures IndexOf(s, marker, pos) == |s| + 1
    decreases |s| - pos
  {
    if pos < |s| {
      assert s[pos + 0] != marker[0];
      NoMarker(s, pos + 1, marker);
    }
  }

  predicate Blanks(t: string) {
    forall k :: 0 <= k < |t| ==> IsSpace(t[k])
  }

  lemma {:induction false} SkipBlanks(s: string, i: nat, blank: string)
    requires At(s, i, blank) && Blanks(blank) && i + |blank| < |s| && !IsSpace(s[i + |blank|])
    ensures SkipSpace(s, i) == i + |blank|
    decreases |blank|
  {
    if blank != "" {
      AtChar(s, i, blank, 0);
      assert blank == [blank[0]] + blank[1..];
      AtParts(s, i, [blank[0]], blank[1..]);
      SkipBlanks(s, i + 1, blank[1..]);
    }
  }

  /** The word ends at the end position or at white space. */
  lemma {:induction false} WordIs(s: string, i: nat, word: string, endPos: nat)
    requires At(s, i, word) && i + |word| <= endPos < |s| && forall k :: 0 <= k < |word| ==> !IsSpace(word[k])
    requires i + |word| == endPos || IsSpace(s[i + |word|])
    ensures Word(s, i, endPos) == word
    decreases |word|
  {
    if word != "" {
      AtChar(s, i, word, 0);
      assert word == [word[0]] + word[1..];
      AtParts(s, i, [word[0]], word[1..]);
      WordIs(s, i + 1, word[1..], endPos);
    }
  }

  lemma KeyIs(s: string, i: nat, key: string)
    requires At(s, i, key) && PlainKey(key) && i + |key| < |s| && !IsSpace(s[i + |key|])
    ensures TagName(s, i, i + |key|) == key
  {
    AtChar(s, i, key, 0);
    WordIs(s, i, key, i + |key|);
  }

  /** A key between white space. */
  lemma SpacedKeyIs(s: string, i: nat, blank: string, key: string, endPos: nat)
    requires At(s, i, blank) && Blanks(blank) && At(s, i + |blank|, key) && PlainKey(key)
    requires i + |blank| + |key| <= endPos < |s| && !IsSpace(s[endPos])
    requires i + |blank| + |key| == endPos || IsSpace(s[i + |blank| + |key|])
    ensures TagName(s, i, endPos) == key
  {
    AtChar(s, i + |blank|, key, 0);
    SkipBlanks(s, i, blank);
    WordIs(s, i + |blank|, key, endPos);
  }

  predicate OneLine(s: string) {
    forall k :: 0 <= k < |s| ==> s[k] != '\n'
  }

  // ------------------------------------------------------------------ the tags that were written

  predicate Without(t: string, c: char) {
    forall k :: 0 <= k < |t| ==> t[k] != c
  }

  /** Text from pos to i, and behind it a tag with its closing marker at e. */
  predicate TagHere(s: string, pos: nat, text: string, inner: string, i: nat, e: nat) {
    && i == pos + |text| && e == i + 2 + |inner| && Without(text, '{') && Without(inner, '}')
    && At(s, pos, text) && At(s, i, "{{") && At(s, i + 2, inner) && At(s, e, "}}")
  }

  lemma TagIsHere(s: string, pos: nat, text: string, inner: string)
    requires Without(text, '{') && Without(inner, '}') && At(s, pos, text) && At(s, pos + |text|, Enclosed(inner))
    ensures TagHere(s, pos, text, inner, pos + |text|, pos + |text| + 2 + |inner|)
  {
    AtParts(s, pos + |text|, "{{" + inner, "}}");
    AtParts(s, pos + |text|, "{{", inner);
  }

  lemma AtMarker(s: string, i: nat, marker: string)
    requires |marker| == 2 && At(s, i, marker)
    ensures HasAt(s, marker, i) && s[i] == marker[0] && s[i + 1] == marker[1]
  {
    AtChar(s, i, marker, 0);
    AtChar(s, i, marker, 1);
  }

  /** A marker behind text that does not hold its character. */
  lemma MarkerBehind(s: string, pos: nat, text: string, marker: string)
    requires |marker| == 2 && Without(text, marker[0]) && At(s, pos, text) && At(s, pos + |text|, marker)
    ensures IndexOf(s, marker, pos) == pos + |text| && HasAt(s, marker, pos + |text|)
  {
    AtMarker(s, pos + |text|, marker);
    forall j | pos <= j < pos + |text|
      ensures s[j] != marker[0]
    {
      AtChar(s, pos, text, j - pos);
    }
    FirstMarker(s, pos, pos + |text|, marker);
  }

  lemma Markers(s: string, pos: nat, text: string, inner: string, i: nat, e: nat)
    requires TagHere(s, pos, text, inner, i, e)
    ensures IndexOf(s, "{{", pos) == i && IndexOf(s, "}}", i + 2) == e
    ensures HasAt(s, "{{", i) && HasAt(s, "}}", e)
  {
    MarkerBehind(s, pos, text, "{{");
    MarkerBehind(s, i + 2, inner, "}}");
  }

  /** The tag between two markers is the next one, when it is a variable or does not take its line. */
  lemma NextTag(s: string, pos: nat, i: nat, e: nat, t: Tag)
    requires IndexOf(s, "{{", pos) == i < |s| && IndexOf(s, "}}", i + 2) == e <= |s| && i + 2 <= e
    requires HasAt(s, "{{", i) && HasAt(s, "}}", e) && Marked(s, i, e) == t
    requires t.kind == Value || (t.start <= |s| && 0 < t.end <= |s| + 1 && Widened(t, s) == t)
    ensures FindTag(s, pos, |s|) == t
  {
    TagAtIs(s, i, e, t);
  }

  lemma TagAtIs(s: string, i: nat, e: nat, t: Tag)
    requires i + 2 <= e && HasAt(s, "{{", i) && HasAt(s, "}}", e) && Marked(s, i, e) == t
    requires t.kind == Value || (t.start <= |s| && 0 < t.end <= |s| + 1 && Widened(t, s) == t)
    ensures TagAt(s, i, e) == t
  {
  }

  /** What the text between two markers says, by its first character. */
  lemma MarkedPlain(s: string, i: nat, e: nat, key: string)
    requires i + 2 <= e && HasAt(s, "{{", i) && HasAt(s, "}}", e)
    requires s[i + 2] !in {'#', '^', '/', '!', '>', '=', '&', '{'} && !IsSpace(s[e]) && TagName(s, i + 2, e) == key
    ensures Marked(s, i, e) == Tag(Value, key, i, e + 2, Escape)
  {
  }

  lemma MarkedSign(s: string, i: nat, e: nat, key: string)
    requires i + 3 <= e && HasAt(s, "{{", i) && HasAt(s, "}}", e)
    requires !IsSpace(s[e]) && TagName(s, i + 3, e) == key
    ensures s[i + 2] == '#' ==> Marked(s, i, e) == Tag(SectionStart, key, i, e + 2, Escape)
    ensures s[i + 2] == '^' ==> Marked(s, i, e) == Tag(InvertedSectionStart, key, i, e + 2, Escape)
    ensures s[i + 2] == '/' ==> Marked(s, i, e) == Tag(SectionEnd, key, i, e + 2, Escape)
    ensures s[i + 2] == '&' ==> Marked(s, i, e) == Tag(Value, key, i, e + 2, Unescape)
  {
  }

  lemma MarkedRaw(s: string, i: nat, e: nat, key: string)
    requires i + 3 <= e && HasAt(s, "{{", i) && HasAt(s, "}}", e) && s[i + 2] == '{' && IndexOf(s, "}", i + 3) == e
    requires !IsSpace(s[e]) && TagName(s, i + 3, e) == key
    ensures Marked(s, i, e) == Tag(Value, key, i, e + 3, Raw)
  {
  }

  lemma BraceBehind(s: string, i: nat, key: string, e: nat)
    requires At(s, i, key) && Without(key, '}') && e == i + |key| && e < |s| && s[e] == '}'
    ensures IndexOf(s, "}", i) == e
  {
    forall j | i <= j < e
      ensures s[j] != '}'
    {
      AtChar(s, i, key, j - i);
    }
    FirstMarker(s, i, e, "}");
  }

  // ------------------------------------------------------------------ one tag

  /** The word between the markers. */
  lemma Word0(s: string, i: nat, key: string, e: nat)
    requires At(s, i + 2, key) && At(s, e, "}}") && e == i + 2 + |key| && PlainKey(key)
    ensures s[i + 2] == key[0] && s[e] == s[e + 1] == '}' && TagName(s, i + 2, e) == key
  {
    AtMarker(s, e, "}}");
    AtChar(s, i + 2, key, 0);
    KeyIs(s, i + 2, key);
  }

  /** ... and behind a sign. */
  lemma Word1(s: string, i: nat, c: char, key: string, e: nat)
    requires At(s, i + 2, [c] + key) && At(s, e, "}}") && e == i + 3 + |key| && PlainKey(key)
    ensures s[i + 2] == c && s[e] == s[e + 1] == '}' && At(s, i + 3, key) && TagName(s, i + 3, e) == key
  {
    AtMarker(s, e, "}}");
    AtParts(s, i + 2, [c], key);
    AtChar(s, i + 2, [c], 0);
    KeyIs(s, i + 3, key);
  }

  /** A variable behind plain text is the next tag. */
  lemma PlainVariable(s: string, pos: nat, text: string, key: string, i: nat, e: nat)
    requires PlainKey(key) && TagHere(s, pos, text, key, i, e)
    ensures FindTag(s, pos, |s|) == Tag(Value, key, i, e + 2, Escape)
  {
    Markers(s, pos, text, key, i, e);
    Word0(s, i, key, e);
    MarkedPlain(s, i, e, key);
    NextTag(s, pos, i, e, Tag(Value, key, i, e + 2, Escape));
  }

  lemma UnescapedVariable(s: string, pos: nat, text: string, key: string, i: nat, e: nat)
    requires PlainKey(key) && TagHere(s, pos, text, ['&'] + key, i, e)
    ensures FindTag(s, pos, |s|) == Tag(Value, key, i, e + 2, Unescape)
  {
    Markers(s, pos, text, ['&'] + key, i, e);
    Word1(s, i, '&', key, e);
    MarkedSign(s, i, e, key);
    NextTag(s, pos, i, e, Tag(Value, key, i, e + 2, Unescape));
  }

  lemma RawVariable(s: string, pos: nat, text: string, key: string, i: nat, e: nat)
    requires PlainKey(key) && TagHere(s, pos, text, ['{'] + key, i, e)
    ensures FindTag(s, pos, |s|) == Tag(Value, key, i, e + 3, Raw)
  {
    Markers(s, pos, text, ['{'] + key, i, e);
    Word1(s, i, '{', key, e);
    BraceBehind(s, i + 3, key, e);
    MarkedRaw(s, i, e, key);
    NextTag(s, pos, i, e, Tag(Value, key, i, e + 3, Raw));
  }

  /** The tags of a section do not take their line when there is another character on it. */
  lemma SectionTag(s: string, pos: nat, text: string, c: char, key: string, i: nat, e: nat, k: nat, t: Tag)
    requires PlainKey(key) && c in {'#', '^', '/'} && OneLine(s) && TagHere(s, pos, text, [c] + key, i, e)
    requires k < |s| && !IsSpace(s[k]) && (k < i || e + 2 <= k)
    requires t == Tag(if c == '#' then SectionStart else if c == '^' then InvertedSectionStart else SectionEnd,
                      key, i, e + 2, Escape)
    ensures FindTag(s, pos, |s|) == t
  {
    Markers(s, pos, text, [c] + key, i, e);
    Word1(s, i, c, key, e);
    MarkedSign(s, i, e, key);
    SharesLine(t, s, k);
    NextTag(s, pos, i, e, t);
  }

  // ------------------------------------------------------------------ reading a written tree

  lemma ParseText(s: string, pos: nat, text: string)
    requires Boundary(s, pos) && Without(text, '{') && At(s, pos, text) && pos + |text| == |s|
    ensures Parse(s, pos) == Parsed([Literal(text)], NO_TAG)
  {
    MidIs(s, pos, text);
    forall j | pos <= j < |s|
      ensures s[j] != '{'
    {
      AtChar(s, pos, text, j - pos);
    }
    NoMarker(s, pos, "{{");
  }

  lemma ParseEnd(s: string, pos: nat, text: string, t: Tag)
    requires Boundary(s, pos) && FindTag(s, pos, |s|) == t && t.kind == SectionEnd
    requires At(s, pos, text) && t.start == pos + |text|
    ensures Parse(s, pos) == Parsed([Literal(text)], t)
  {
    MidIs(s, pos, text);
  }

  lemma ParseVariable(s: string, pos: nat, text: string, t: Tag)
    requires Boundary(s, pos) && FindTag(s, pos, |s|) == t && t.kind == Value
    requires At(s, pos, text) && t.start == pos + |text|
    ensures Boundary(s, t.end)
    ensures Parse(s, pos) == Before([Literal(text), Variable(t.key, t.mode)], Parse(s, t.end))
  {
    MidIs(s, pos, text);
    FoundTag(s, pos, |s|);
  }

  /** The text from pos on ends at position end, with the end tag c or with the template. */
  ghost predicate EndsWith(s: string, pos: nat, end: nat, c: Tag) {
    if c.kind == Null then c == NO_TAG && end == |s|
    else && PlainKey(c.key) && c == Tag(SectionEnd, c.key, end, end + 5 + |c.key|, Escape)
         && At(s, end, Enclosed(['/'] + c.key)) && 0 < pos <= |s| && s[pos - 1] == '}'
  }

  lemma EndsBehind(s: string, pos: nat, j: nat, end: nat, c: Tag)
    requires EndsWith(s, pos, end, c) && 0 < j <= |s| && s[j - 1] == '}'
    ensures EndsWith(s, j, end, c)
  {
  }

  lemma ParseLast(s: string, pos: nat, text: string, c: Tag)
    requires OneLine(s) && Boundary(s, pos) && PlainText(text) && At(s, pos, text)
    requires EndsWith(s, pos, pos + |text|, c)
    ensures Parse(s, pos) == Parsed([Literal(text)], c)
  {
    if c.kind == Null {
      ParseText(s, pos, text);
    } else {
      TagIsHere(s, pos, text, ['/'] + c.key);
      SectionTag(s, pos, text, '/', c.key, c.start, c.end - 2, pos - 1, c);
      ParseEnd(s, pos, text, c);
    }
  }

  lemma SignedWithout(c: char, key: string)
    requires PlainKey(key) && c != '}'
    ensures Without([c] + key, '}')
  {
  }

  lemma EnclosedEnds(s: string, i: nat, inner: string)
    requires At(s, i, Enclosed(inner))
    ensures s[i + |inner| + 3] == '}'
  {
    AtChar(s, i, Enclosed(inner), |inner| + 3);
  }

  lemma PlainFound(s: string, pos: nat, text: string, key: string)
    requires PlainText(text) && PlainKey(key) && At(s, pos, text) && At(s, pos + |text|, Enclosed(key))
    ensures var i, j := pos + |text|, pos + |text| + 4 + |key|;
            FindTag(s, pos, |s|) == Tag(Value, key, i, j, Escape) && s[j - 1] == '}'
  {
    TagIsHere(s, pos, text, key);
    PlainVariable(s, pos, text, key, pos + |text|, pos + |text| + 2 + |key|);
    EnclosedEnds(s, pos + |text|, key);
  }

  lemma UnescapedFound(s: string, pos: nat, text: string, key: string, inner: string)
    requires PlainText(text) && PlainKey(key) && inner == ['&'] + key && Without(inner, '}')
    requires At(s, pos, text) && At(s, pos + |text|, Enclosed(inner))
    ensures var i, j := pos + |text|, pos + |text| + 5 + |key|;
            FindTag(s, pos, |s|) == Tag(Value, key, i, j, Unescape) && s[j - 1] == '}'
  {
    TagIsHere(s, pos, text, inner);
    UnescapedVariable(s, pos, text, key, pos + |text|, pos + |text| + 3 + |key|);
    EnclosedEnds(s, pos + |text|, inner);
  }

  lemma RawFound(s: string, pos: nat, text: string, key: string, inner: string)
    requires PlainText(text) && PlainKey(key) && inner == ['{'] + key && Without(inner, '}')
    requires At(s, pos, text) && At(s, pos + |text|, Enclosed(inner)) && At(s, pos + |text| + 5 + |key|, "}")
    ensures var i, j := pos + |text|, pos + |text| + 6 + |key|;
            FindTag(s, pos, |s|) == Tag(Value, key, i, j, Raw) && s[j - 1] == '}'
  {
    TagIsHere(s, pos, text, inner);
    RawVariable(s, pos, text, key, pos + |text|, pos + |text| + 3 + |key|);
    AtChar(s, pos + |text| + 5 + |key|, "}", 0);
  }

  /** The start tag of a section behind plain text, with its end tag at position q. */
  lemma SectionFound(s: string, pos: nat, text: string, c: char, key: string, inner: string, q: nat, t: Tag)
    requires OneLine(s) && PlainText(text) && PlainKey(key) && c in {'#', '^'} && inner == [c] + key
    requires Without(inner, '}') && At(s, pos, text) && At(s, pos + |text|, Enclosed(inner))
    requires q >= t.end && q < |s| && s[q] == '{' && t.end == pos + |text| + 5 + |key|
    requires t == Tag(if c == '#' then SectionStart else InvertedSectionStart, key, pos + |text|, t.end, Escape)
    ensures FindTag(s, pos, |s|) == t && s[t.end - 1] == '}'
  {
    TagIsHere(s, pos, text, inner);
    SectionTag(s, pos, text, c, key, t.start, t.end - 2, q, t);
    EnclosedEnds(s, t.start, inner);
  }

  lemma BeforeNodes(a: Node, b: Node, nodes: seq<Node>, c: Tag)
    requires |nodes| >= 3 && nodes[0] == a && nodes[1] == b
    ensures Before([a, b], Parsed(nodes[2..], c)) == Parsed(nodes, c)
  {
    assert [a, b] + nodes[2..] == nodes;
  }

  // ------------------------------------------------------------------ the parts of what was written

  lemma WrittenParts(s: string, pos: nat, nodes: seq<Node>)
    requires Canonical(nodes) && |nodes| >= 3 && At(s, pos, Written(nodes))
    ensures var i, n := pos + |nodes[0].text|, nodes[1];
            && At(s, pos, nodes[0].text) && At(s, i, WrittenTag(n)) && At(s, i + |WrittenTag(n)|, Written(nodes[2..]))
            && pos + |Written(nodes)| == i + |WrittenTag(n)| + |Written(nodes[2..])|
  {
    AtParts(s, pos, nodes[0].text + WrittenTag(nodes[1]), Written(nodes[2..]));
    AtParts(s, pos, nodes[0].text, WrittenTag(nodes[1]));
  }

  lemma SectionParts(s: string, i: nat, key: string, inverted: bool, body: string)
    requires At(s, i, StartTag(key, inverted) + body + Enclosed(['/'] + key))
    ensures var m, q := i + 5 + |key|, i + 5 + |key| + |body|;
            && At(s, i, StartTag(key, inverted)) && At(s, m, body) && At(s, q, Enclosed(['/'] + key))
            && s[m - 1] == '}' && s[q] == '{' && s[q + 4 + |key|] == '}'
  {
    var open, close := StartTag(key, inverted), Enclosed(['/'] + key);
    AtParts(s, i, open + body, close);
    AtParts(s, i, open, body);
    var q := i + 5 + |key| + |body|;
    EnclosedEnds(s, i, [if inverted then '^' else '#'] + key);
    AtChar(s, q, close, 0);
    EnclosedEnds(s, q, ['/'] + key);
  }

  // ------------------------------------------------------------------ the rules of reading

  /** The tag of a variable that starts at i. */
  function VariableAt(key: string, mode: EscapeMode, i: nat): Tag {
    Tag(Value, key, i, i + |VariableTag(key, mode)|, mode)
  }

  /** The start tag and the end tag of a section. */
  function StartAt(key: string, inverted: bool, i: nat): Tag {
    Tag(if inverted then InvertedSectionStart else SectionStart, key, i, i + 5 + |key|, Escape)
  }

  function EndAt(key: string, q: nat): Tag {
    Tag(SectionEnd, key, q, q + 5 + |key|, Escape)
  }

  /** Behind plain text the written tag w is the next tag, t. */
  ghost predicate Found(tagAt: nat -> Tag, s: string, pos: nat, text: string, w: string, t: Tag) {
    PlainText(text) && PlainKey(t.key) && At(s, pos, text) && At(s, pos + |text|, w) ==>
      tagAt(pos) == t && 0 < t.end <= |s| && s[t.end - 1] == '}'
  }

  ghost predicate VariableFound(tagAt: nat -> Tag, s: string, pos: nat, text: string, key: string, mode: EscapeMode) {
    Found(tagAt, s, pos, text, VariableTag(key, mode), VariableAt(key, mode, pos + |text|))
  }

  /** So is a written start tag when its end tag follows. */
  ghost predicate StartFound(tagAt: nat -> Tag, s: string, pos: nat, text: string, key: string, inverted: bool, q: nat)
  {
    PlainText(text) && PlainKey(key) && At(s, pos, text) && At(s, pos + |text|, StartTag(key, inverted))
    && pos + |text| + 5 + |key| <= q < |s| && s[q] == '{' ==>
      tagAt(pos) == StartAt(key, inverted, pos + |text|) && s[tagAt(pos).end - 1] == '}'
  }

  /** Text up to the end. */
  ghost predicate LastRule(parse: nat -> Parsed, s: string, pos: nat, text: string, c: Tag) {
    Boundary(s, pos) && PlainText(text) && At(s, pos, text) && EndsWith(s, pos, pos + |text|, c) ==>
      parse(pos) == Parsed([Literal(text)], c)
  }

  /** Text and a variable. */
  ghost predicate VariableRule(parse: nat -> Parsed, tagAt: nat -> Tag, s: string, pos: nat, text: string, t: Tag) {
    Boundary(s, pos) && tagAt(pos) == t && t.kind == Value && At(s, pos, text) && t.start == pos + |text| ==>
      parse(pos) == Before([Literal(text), Variable(t.key, t.mode)], parse(t.end))
  }

  /** Text and the start of a section. */
  ghost predicate StartRule(parse: nat -> Parsed, section: (Tag, Node, bool) -> Parsed, tagAt: nat -> Tag, s: string,
                            pos: nat, t: Tag) {
    Boundary(s, pos) && tagAt(pos) == t && OpensSection(t) ==>
      parse(pos) == section(t, Literal(Mid(s, pos, t.start)), t.kind == InvertedSectionStart)
  }

  /** A section. */
  ghost predicate SectionRule(parse: nat -> Parsed, section: (Tag, Node, bool) -> Parsed, s: string, t: Tag,
                              before: Node, inverted: bool, body: seq<Node>, c: Tag) {
    && Boundary(s, t.end) && 0 < t.end <= |s| && parse(t.end) == Parsed(body, c) && c.kind == SectionEnd
    && c.key == t.key && Boundary(s, c.end) ==>
      section(t, before, inverted) == Before([before, Section(t.key, inverted, body)], parse(c.end))
  }

  ghost predicate Rules(parse: nat -> Parsed, section: (Tag, Node, bool) -> Parsed, tagAt: nat -> Tag, s: string) {
    && (forall pos, text, key, mode :: VariableFound(tagAt, s, pos, text, key, mode))
    && (forall pos, text, key, inverted, q :: StartFound(tagAt, s, pos, text, key, inverted, q))
    && (forall pos, text, c :: LastRule(parse, s, pos, text, c))
    && (forall pos, text, t :: VariableRule(parse, tagAt, s, pos, text, t))
    && (forall pos, t :: StartRule(parse, section, tagAt, s, pos, t))
    && (forall t, before, inverted, body, c :: SectionRule(parse, section, s, t, before, inverted, body, c))
  }

  /** What such rules make of a written tree. */
  lemma {:induction false} WrittenRead(parse: nat -> Parsed, section: (Tag, Node, bool) -> Parsed, tagAt: nat -> Tag,
                                       s: string, pos: nat, nodes: seq<Node>, c: Tag)
    requires Rules(parse, section, tagAt, s) && Boundary(s, pos) && Canonical(nodes) && At(s, pos, Written(nodes))
    requires EndsWith(s, pos, pos + |Written(nodes)|, c)
    ensures parse(pos) == Parsed(nodes, c)
    decreases nodes, 2
  {
    if |nodes| == 1 {
      assert LastRule(parse, s, pos, nodes[0].text, c);
    } else {
      var text, n := nodes[0].text, nodes[1];
      var j := pos + |text| + |WrittenTag(n)|;
      FirstRead(parse, section, tagAt, s, pos, nodes, j, c);
      WrittenRead(parse, section, tagAt, s, j, nodes[2..], c);
      BeforeNodes(nodes[0], n, nodes, c);
    }
  }

  lemma {:induction false} FirstRead(parse: nat -> Parsed, section: (Tag, Node, bool) -> Parsed, tagAt: nat -> Tag,
                                     s: string, pos: nat, nodes: seq<Node>, j: nat, c: Tag)
    requires Rules(parse, section, tagAt, s) && Boundary(s, pos) && Canonical(nodes) && At(s, pos, Written(nodes))
    requires |nodes| >= 3 && EndsWith(s, pos, pos + |Written(nodes)|, c)
    requires j == pos + |nodes[0].text| + |WrittenTag(nodes[1])|
    ensures 0 < j <= |s| && s[j - 1] == '}' && At(s, j, Written(nodes[2..]))
    ensures EndsWith(s, j, j + |Written(nodes[2..])|, c)
    ensures parse(pos) == Before([Literal(nodes[0].text), nodes[1]], parse(j))
    decreases nodes, 1
  {
    WrittenParts(s, pos, nodes);
    TagRead(parse, section, tagAt, s, pos, nodes[0].text, nodes[1], j);
    EndsBehind(s, pos, j, pos + |Written(nodes)|, c);
  }

  lemma {:induction false} TagRead(parse: nat -> Parsed, section: (Tag, Node, bool) -> Parsed, tagAt: nat -> Tag,
                                   s: string, pos: nat, text: string, n: Node, j: nat)
    requires Rules(parse, section, tagAt, s) && Boundary(s, pos) && PlainText(text) && CanonicalTag(n)
    requires At(s, pos, text) && At(s, pos + |text|, WrittenTag(n)) && j == pos + |text| + |WrittenTag(n)|
    ensures 0 < j <= |s| && s[j - 1] == '}' && parse(pos) == Before([Literal(text), n], parse(j))
    decreases n, 0
  {
    if n.Variable? {
      VariableRead(parse, section, tagAt, s, pos, text, n.key, n.mode);
    } else {
      SectionRead(parse, section, tagAt, s, pos, text, n.key, n.inverted, n.body, Written(n.body), j);
    }
  }

  lemma VariableRead(parse: nat -> Parsed, section: (Tag, Node, bool) -> Parsed, tagAt: nat -> Tag, s: string,
                     pos: nat, text: string, key: string, mode: EscapeMode)
    requires Rules(parse, section, tagAt, s) && Boundary(s, pos) && PlainText(text) && PlainKey(key)
    requires At(s, pos, text) && At(s, pos + |text|, VariableTag(key, mode))
    ensures var j := pos + |text| + |VariableTag(key, mode)|;
            0 < j <= |s| && s[j - 1] == '}' && parse(pos) == Before([Literal(text), Variable(key, mode)], parse(j))
  {
    assert VariableFound(tagAt, s, pos, text, key, mode);
    assert VariableRule(parse, tagAt, s, pos, text, tagAt(pos));
  }

  lemma {:induction false} SectionRead(parse: nat -> Parsed, section: (Tag, Node, bool) -> Parsed, tagAt: nat -> Tag,
                                       s: string, pos: nat, text: string, key: string, inverted: bool,
                                       body: seq<Node>, w: string, j: nat)
    requires Rules(parse, section, tagAt, s) && Boundary(s, pos) && PlainText(text) && PlainKey(key)
    requires Canonical(body) && Written(body) == w && At(s, pos, text)
    requires At(s, pos + |text|, StartTag(key, inverted) + w + Enclosed(['/'] + key))
    requires j == pos + |text| + |StartTag(key, inverted) + w + Enclosed(['/'] + key)|
    ensures 0 < j <= |s| && s[j - 1] == '}'
    ensures parse(pos) == Before([Literal(text), Section(key, inverted, body)], parse(j))
    decreases body, 3
  {
    var i, m := pos + |text|, pos + |text| + 5 + |key|;
    var t, c := StartAt(key, inverted, i), EndAt(key, m + |w|);
    SectionParts(s, i, key, inverted, w);
    WrittenRead(parse, section, tagAt, s, m, body, c);
    StartRead(parse, section, tagAt, s, pos, text, key, inverted, m + |w|);
    assert SectionRule(parse, section, s, t, Literal(text), inverted, body, c);
  }

  lemma StartRead(parse: nat -> Parsed, section: (Tag, Node, bool) -> Parsed, tagAt: nat -> Tag, s: string, pos: nat,
                  text: string, key: string, inverted: bool, q: nat)
    requires Rules(parse, section, tagAt, s) && Boundary(s, pos) && PlainText(text) && PlainKey(key)
    requires At(s, pos, text) && At(s, pos + |text|, StartTag(key, inverted))
    requires pos + |text| + 5 + |key| <= q < |s| && s[q] == '{'
    ensures parse(pos) == section(StartAt(key, inverted, pos + |text|), Literal(text), inverted)
  {
    assert StartFound(tagAt, s, pos, text, key, inverted, q);
    MidIs(s, pos, text);
    assert StartRule(parse, section, tagAt, s, pos, StartAt(key, inverted, pos + |text|));
  }

  // ------------------------------------------------------------------ the parser follows the rules

  ghost predicate IsParse(parse: nat -> Parsed, s: string) {
    forall pos :: Boundary(s, pos) ==> parse(pos) == Parse(s, pos)
  }

  ghost predicate IsSection(section: (Tag, Node, bool) -> Parsed, s: string) {
    forall t: Tag, before, inverted :: Boundary(s, t.end) && 0 < t.end <= |s| + 1 ==>
      section(t, before, inverted) == ParseSection(s, t, before, inverted)
  }

  ghost predicate Finds(tagAt: nat -> Tag, s: string) {
    forall pos :: tagAt(pos) == FindTag(s, pos, |s|)
  }

  lemma FindsStart(s: string, pos: nat, text: string, key: string, inverted: bool, q: nat)
    requires OneLine(s) && PlainText(text) && PlainKey(key) && At(s, pos, text)
    requires At(s, pos + |text|, StartTag(key, inverted)) && pos + |text| + 5 + |key| <= q < |s| && s[q] == '{'
    ensures FindTag(s, pos, |s|) == StartAt(key, inverted, pos + |text|)
    ensures s[pos + |text| + 5 + |key| - 1] == '}'
  {
    var c := if inverted then '^' else '#';
    SignedWithout(c, key);
    SectionFound(s, pos, text, c, key, [c] + key, q, StartAt(key, inverted, pos + |text|));
  }

  lemma ParserRules(parse: nat -> Parsed, section: (Tag, Node, bool) -> Parsed, tagAt: nat -> Tag, s: string)
    requires OneLine(s) && IsParse(parse, s) && IsSection(section, s) && Finds(tagAt, s)
    ensures Rules(parse, section, tagAt, s)
  {
    forall pos, text, key, mode
      ensures VariableFound(tagAt, s, pos, text, key, mode)
    {
      FoundVariable(tagAt, s, pos, text, key, mode);
    }
    forall pos, text, key, inverted, q
      ensures StartFound(tagAt, s, pos, text, key, inverted, q)
    {
      FoundStart(tagAt, s, pos, text, key, inverted, q);
    }
    forall pos, text, c
      ensures LastRule(parse, s, pos, text, c)
    {
      ParsesLast(parse, s, pos, text, c);
    }
    forall pos, text, t
      ensures VariableRule(parse, tagAt, s, pos, text, t)
    {
      ParsesVariable(parse, tagAt, s, pos, text, t);
    }
    forall pos, t
      ensures StartRule(parse, section, tagAt, s, pos, t)
    {
      ParsesStart(parse, section, tagAt, s, pos, t);
    }
    forall t, before, inverted, body, c
      ensures SectionRule(parse, section, s, t, before, inverted, body, c)
    {
      ParsesSection(parse, section, s, t, before, inverted, body, c);
    }
  }

  lemma FoundEscaped(tagAt: nat -> Tag, s: string, pos: nat, text: string, key: string, t: Tag)
    requires Finds(tagAt, s) && t == Tag(Value, key, pos + |text|, pos + |text| + 4 + |key|, Escape)
    ensures Found(tagAt, s, pos, text, Enclosed(key), t)
  {
    if PlainText(text) && PlainKey(key) && At(s, pos, text) && At(s, pos + |text|, Enclosed(key)) {
      PlainFound(s, pos, text, key);
    }
  }

  lemma FoundUnescaped(tagAt: nat -> Tag, s: string, pos: nat, text: string, key: string, inner: string, t: Tag)
    requires Finds(tagAt, s) && inner == ['&'] + key
    requires t == Tag(Value, key, pos + |text|, pos + |text| + 5 + |key|, Unescape)
    ensures Found(tagAt, s, pos, text, Enclosed(inner), t)
  {
    if PlainText(text) && PlainKey(key) && At(s, pos, text) && At(s, pos + |text|, Enclosed(inner)) {
      SignedWithout('&', key);
      UnescapedFound(s, pos, text, key, inner);
    }
  }

  lemma FoundRaw(tagAt: nat -> Tag, s: string, pos: nat, text: string, key: string, inner: string, t: Tag)
    requires Finds(tagAt, s) && inner == ['{'] + key
    requires t == Tag(Value, key, pos + |text|, pos + |text| + 6 + |key|, Raw)
    ensures Found(tagAt, s, pos, text, Enclosed(inner) + "}", t)
  {
    if PlainText(text) && PlainKey(key) && At(s, pos, text) && At(s, pos + |text|, Enclosed(inner) + "}") {
      SignedWithout('{', key);
      AtParts(s, pos + |text|, Enclosed(inner), "}");
      RawFound(s, pos, text, key, inner);
    }
  }

  lemma FoundVariable(tagAt: nat -> Tag, s: string, pos: nat, text: string, key: string, mode: EscapeMode)
    requires Finds(tagAt, s)
    ensures VariableFound(tagAt, s, pos, text, key, mode)
  {
    var t := VariableAt(key, mode, pos + |text|);
    match mode
    case Escape => FoundEscaped(tagAt, s, pos, text, key, t);
    case Unescape => FoundUnescaped(tagAt, s, pos, text, key, ['&'] + key, t);
    case Raw => FoundRaw(tagAt, s, pos, text, key, ['{'] + key, t);
  }

  lemma FoundStart(tagAt: nat -> Tag, s: string, pos: nat, text: string, key: string, inverted: bool, q: nat)
    requires OneLine(s) && Finds(tagAt, s)
    ensures StartFound(tagAt, s, pos, text, key, inverted, q)
  {
    if PlainText(text) && PlainKey(key) && At(s, pos, text) && At(s, pos + |text|, StartTag(key, inverted))
       && pos + |text| + 5 + |key| <= q < |s| && s[q] == '{' {
      FindsStart(s, pos, text, key, inverted, q);
    }
  }

  lemma ParsesLast(parse: nat -> Parsed, s: string, pos: nat, text: string, c: Tag)
    requires OneLine(s) && IsParse(parse, s)
    ensures LastRule(parse, s, pos, text, c)
  {
    if Boundary(s, pos) && PlainText(text) && At(s, pos, text) && EndsWith(s, pos, pos + |text|, c) {
      ParseLast(s, pos, text, c);
    }
  }

  lemma ParsesVariable(parse: nat -> Parsed, tagAt: nat -> Tag, s: string, pos: nat, text: string, t: Tag)
    requires IsParse(parse, s) && Finds(tagAt, s)
    ensures VariableRule(parse, tagAt, s, pos, text, t)
  {
    if Boundary(s, pos) && tagAt(pos) == t && t.kind == Value && At(s, pos, text) && t.start == pos + |text| {
      ParseVariable(s, pos, text, t);
    }
  }

  lemma ParsesStart(parse: nat -> Parsed, section: (Tag, Node, bool) -> Parsed, tagAt: nat -> Tag, s: string, pos: nat,
                    t: Tag)
    requires IsParse(parse, s) && IsSection(section, s) && Finds(tagAt, s)
    ensures StartRule(parse, section, tagAt, s, pos, t)
  {
    if Boundary(s, pos) && tagAt(pos) == t && OpensSection(t) {
      ParseOpens(s, pos, t);
    }
  }

  lemma ParsesSection(parse: nat -> Parsed, section: (Tag, Node, bool) -> Parsed, s: string, t: Tag, before: Node,
                      inverted: bool, body: seq<Node>, c: Tag)
    requires IsParse(parse, s) && IsSection(section, s)
    ensures SectionRule(parse, section, s, t, before, inverted, body, c)
  {
  }

  // ------------------------------------------------------------------ the parser recovers the tree

  /** A written tree has no line break. */
  lemma {:induction false} WrittenOneLine(nodes: seq<Node>)
    requires Canonical(nodes)
    ensures OneLine(Written(nodes))
    decreases nodes, 2
  {
    if |nodes| > 1 {
      TagOneLine(nodes[1]);
      WrittenOneLine(nodes[2..]);
      JoinedOneLine(nodes[0].text, WrittenTag(nodes[1]));
      JoinedOneLine(nodes[0].text + WrittenTag(nodes[1]), Written(nodes[2..]));
    }
  }

  lemma {:induction false} TagOneLine(n: Node)
    requires CanonicalTag(n)
    ensures OneLine(WrittenTag(n))
    decreases n, 1
  {
    if n.Section? {
      WrittenOneLine(n.body);
      JoinedOneLine(StartTag(n.key, n.inverted), Written(n.body));
      JoinedOneLine(StartTag(n.key, n.inverted) + Written(n.body), Enclosed(['/'] + n.key));
    }
  }

  lemma JoinedOneLine(a: string, b: string)
    requires OneLine(a) && OneLine(b)
    ensures OneLine(a + b)
  {
  }

  /** Parsing a written tree gives the tree. */
  lemma WrittenIsParsed(nodes: seq<Node>)
    requires Canonical(nodes)
    ensures Parse(Written(nodes), 0) == Parsed(nodes, NO_TAG)
  {
    var s := Written(nodes);
    var parse := (pos: nat) => if Boundary(s, pos) then Parse(s, pos) else Malformed;
    var section := (t: Tag, before: Node, inverted: bool) =>
      if Boundary(s, t.end) && 0 < t.end <= |s| + 1 then ParseSection(s, t, before, inverted) else Malformed;
    var tagAt := (pos: nat) => FindTag(s, pos, |s|);
    WrittenOneLine(nodes);
    ParserRules(parse, section, tagAt, s);
    WrittenRead(parse, section, tagAt, s, 0, nodes, NO_TAG);
  }

  /** Scanning it as the renderer does gives the tree too, and the template is in order. */
  lemma WrittenIsScanned(nodes: seq<Node>)
    requires Canonical(nodes)
    ensures WellFormed(Written(nodes)) && NoDelimiterTags(Written(nodes), 0)
    ensures Scan(Written(nodes), 0, |Written(nodes)|) == nodes
  {
    WrittenIsParsed(nodes);
    NoDelimiters(Written(nodes), 0);
    ScanSoundIff(Written(nodes));
  }
}
