/**
  Templates of one tag between two texts: comments, and the variables that a written tree does not have.
 */
module SingleTags {
  import opened Tags
  import opened TagOrder
  import opened HtmlEscape
  import opened Templates
  import opened TemplateScan
  import opened TemplateText
  import opened TemplateLaws

  /** A tag between plain texts, on a line with another character than white space at k. */
  ghost predicate Between(s: string, a: string, inner: string, b: string, k: nat) {
    && s == a + Enclosed(inner) + b && PlainText(a) && PlainText(b) && Without(inner, '}') && Without(inner, '\n')
    && k < |s| && !IsSpace(s[k]) && (k < |a| || |a| + 4 + |inner| <= k)
  }

  lemma EnclosedOneLine(inner: string)
    requires OneLine(inner)
    ensures OneLine(Enclosed(inner))
  {
    JoinedOneLine("{{", inner);
    JoinedOneLine("{{" + inner, "}}");
  }

  lemma BetweenOneLine(s: string, a: string, inner: string, b: string, k: nat)
    requires Between(s, a, inner, b, k)
    ensures OneLine(s)
  {
    EnclosedOneLine(inner);
    JoinedOneLine(a, Enclosed(inner));
    JoinedOneLine(a + Enclosed(inner), b);
  }

  lemma BetweenParts(s: string, a: string, inner: string, b: string)
    requires s == a + Enclosed(inner) + b
    ensures At(s, 0, a) && At(s, |a|, Enclosed(inner)) && At(s, |a| + 4 + |inner|, b)
    ensures |s| == |a| + 4 + |inner| + |b| && s[|a| + 4 + |inner| - 1] == '}'
  {
    assert At(s, 0, s);
    AtParts(s, 0, a + Enclosed(inner), b);
    AtParts(s, 0, a, Enclosed(inner));
    EnclosedEnds(s, |a|, inner);
  }

  lemma BetweenTag(s: string, a: string, inner: string, b: string, k: nat)
    requires Between(s, a, inner, b, k)
    ensures OneLine(s) && At(s, 0, a) && At(s, |a| + 4 + |inner|, b) && |s| == |a| + 4 + |inner| + |b|
    ensures TagHere(s, 0, a, inner, |a|, |a| + 2 + |inner|) && s[|a| + 4 + |inner| - 1] == '}'
  {
    BetweenOneLine(s, a, inner, b, k);
    BetweenParts(s, a, inner, b);
    TagIsHere(s, 0, a, inner);
  }

  /** A comment or a partial is the next tag. */
  lemma RemarkTag(s: string, a: string, sign: char, note: string, i: nat, e: nat, k: nat) returns (t: Tag)
    requires OneLine(s) && sign in {'!', '>'} && TagHere(s, 0, a, [sign] + note, i, e)
    requires k < |s| && !IsSpace(s[k]) && (k < i || e + 2 <= k)
    ensures t == FindTag(s, 0, |s|) && t.kind in {Comment, Partial} && t.start == i && t.end == e + 2
  {
    t := Marked(s, i, e);
    Markers(s, 0, a, [sign] + note, i, e);
    AtChar(s, i + 2, [sign] + note, 0);
    SharesLine(t, s, k);
    NextTag(s, 0, i, e, t);
  }

  lemma NoTagIn(s: string, pos: nat, b: string)
    requires At(s, pos, b) && PlainText(b) && pos + |b| == |s|
    ensures FindTag(s, pos, |s|) == NO_TAG
  {
    forall j | pos <= j < |s|
      ensures s[j] != '{'
    {
      AtChar(s, pos, b, j - pos);
    }
    NoMarker(s, pos, "{{");
  }

  lemma ScanLast(s: string, pos: nat, b: string)
    requires Boundary(s, pos) && At(s, pos, b) && pos + |b| == |s| && FindTag(s, pos, |s|) == NO_TAG
    ensures Scan(s, pos, |s|) == [Literal(b)]
  {
    MidIs(s, pos, b);
  }

  /** A template of one tag between two texts, by the tag and the node it stands for. */
  ghost predicate OneTag(s: string, a: string, t: Tag, n: Node, b: string) {
    && t == FindTag(s, 0, |s|) && t.kind != Null && t.start == |a| && At(s, 0, a) && 0 < t.end <= |s|
    && Boundary(s, t.end) && TagNode(s, t, |s|) == n && TagNext(s, t, |s|) == t.end && !n.Broken?
    && At(s, t.end, b) && t.end + |b| == |s|
  }

  lemma ScanTag(s: string, a: string, t: Tag, n: Node, b: string)
    requires OneTag(s, a, t, n, b) && Scan(s, t.end, |s|) == [Literal(b)]
    ensures Scan(s, 0, |s|) == [Literal(a), n] + [Literal(b)]
  {
    MidIs(s, 0, a);
  }

  lemma OneTagScanned(s: string, a: string, t: Tag, n: Node, b: string)
    requires OneTag(s, a, t, n, b) && FindTag(s, t.end, |s|) == NO_TAG
    ensures Scan(s, 0, |s|) == [Literal(a), n] + [Literal(b)]
  {
    ScanLast(s, t.end, b);
    ScanTag(s, a, t, n, b);
  }

  lemma OneTagEval(a: string, n: Node, b: string, stack: seq<Data>)
    requires !n.Section? && !n.Broken?
    ensures Eval([Literal(a), n] + [Literal(b)], stack) == Outcome(a + (EvalNode(n, stack).text + b), -1)
  {
    EvalTwo(a, n, [Literal(b)], stack);
    EvalOne(b, stack);
  }

  lemma TextBehind(s: string, a: string, t: Tag, n: Node, b: string)
    requires OneTag(s, a, t, n, b) && PlainText(b)
    ensures Scan(s, 0, |s|) == [Literal(a), n] + [Literal(b)]
  {
    NoTagIn(s, t.end, b);
    OneTagScanned(s, a, t, n, b);
  }

  // ------------------------------------------------------------------ comments and partials

  /** A comment leaves nothing, and neither does a partial in a context without partials. */
  lemma RemarkForms(a: string, sign: char, note: string, b: string, k: nat, stack: seq<Data>)
    requires sign in {'!', '>'} && Between(a + Enclosed([sign] + note) + b, a, [sign] + note, b, k)
    ensures Rendered(a + Enclosed([sign] + note) + b, stack) == Outcome(a + b, -1)
  {
    RemarkScanned(a + Enclosed([sign] + note) + b, a, sign, note, b, k);
    RemarkEval(a, b, stack);
  }

  lemma RemarkEval(a: string, b: string, stack: seq<Data>)
    ensures Eval([Literal(a), Remark] + [Literal(b)], stack) == Outcome(a + b, -1)
  {
    OneTagEval(a, Remark, b, stack);
    assert "" + b == b;
  }

  lemma RemarkNode(s: string, a: string, t: Tag, b: string)
    requires t == FindTag(s, 0, |s|) && t.kind in {Comment, Partial} && t.start == |a| && 0 < t.end <= |s|
    requires s[t.end - 1] == '}' && At(s, 0, a) && At(s, t.end, b) && t.end + |b| == |s|
    ensures OneTag(s, a, t, Remark, b)
  {
  }

  lemma RemarkScanned(s: string, a: string, sign: char, note: string, b: string, k: nat)
    requires sign in {'!', '>'} && Between(s, a, [sign] + note, b, k)
    ensures Scan(s, 0, |s|) == [Literal(a), Remark] + [Literal(b)]
  {
    var t := RemarkFound(s, a, sign, note, b, k);
    RemarkNode(s, a, t, b);
    TextBehind(s, a, t, Remark, b);
  }

  lemma RemarkFound(s: string, a: string, sign: char, note: string, b: string, k: nat) returns (t: Tag)
    requires sign in {'!', '>'} && Between(s, a, [sign] + note, b, k)
    ensures t == FindTag(s, 0, |s|) && t.kind in {Comment, Partial} && t.start == |a| && 0 < t.end <= |s|
    ensures s[t.end - 1] == '}' && At(s, 0, a) && At(s, t.end, b) && t.end + |b| == |s|
  {
    BetweenTag(s, a, [sign] + note, b, k);
    t := RemarkTag(s, a, sign, note, |a|, |a| + 3 + |note|, k);
  }

  // ------------------------------------------------------------------ variables

  /** White space around the key of a variable makes no difference, and neither does what follows the key. */
  lemma SpacedVariable(a: string, blank: string, key: string, rest: string, b: string, stack: seq<Data>)
    requires PlainText(a) && Blanks(blank) && PlainKey(key) && PlainText(b)
    requires Without(rest, '}') && (rest == "" || IsSpace(rest[0]))
    ensures Rendered(a + Enclosed(blank + key + rest) + b, stack) ==
            Outcome(a + (Escaped(StringOf(ValueOf(stack, key)), SPECIAL) + b), -1)
  {
    SpacedScanned(a + Enclosed(blank + key + rest) + b, a, blank, key, rest, b);
    OneTagEval(a, Variable(key, Escape), b, stack);
  }

  lemma SpacedScanned(s: string, a: string, blank: string, key: string, rest: string, b: string)
    requires s == a + Enclosed(blank + key + rest) + b && PlainText(a) && Blanks(blank) && PlainKey(key) && PlainText(b)
    requires Without(rest, '}') && (rest == "" || IsSpace(rest[0]))
    ensures Scan(s, 0, |s|) == [Literal(a), Variable(key, Escape)] + [Literal(b)]
  {
    var t := SpacedFound(s, a, blank, key, rest, b);
    TextBehind(s, a, t, Variable(key, Escape), b);
  }

  lemma SpacedFound(s: string, a: string, blank: string, key: string, rest: string, b: string) returns (t: Tag)
    requires s == a + Enclosed(blank + key + rest) + b && PlainText(a) && Blanks(blank) && PlainKey(key)
    requires Without(rest, '}') && (rest == "" || IsSpace(rest[0]))
    ensures OneTag(s, a, t, Variable(key, Escape), b)
  {
    var inner, i := blank + key + rest, |a|;
    BetweenParts(s, a, inner, b);
    SpacedWithout(blank, key, rest);
    TagIsHere(s, 0, a, inner);
    t := SpacedTag(s, a, blank, key, rest, i, i + 2 + |inner|);
  }

  lemma SpacedWithout(blank: string, key: string, rest: string)
    requires Blanks(blank) && PlainKey(key) && Without(rest, '}')
    ensures Without(blank + key + rest, '}')
  {
  }

  lemma SpacedTag(s: string, a: string, blank: string, key: string, rest: string, i: nat, e: nat) returns (t: Tag)
    requires TagHere(s, 0, a, blank + key + rest, i, e) && Blanks(blank) && PlainKey(key)
    requires rest == "" || IsSpace(rest[0])
    ensures t == FindTag(s, 0, |s|) && t == Tag(Value, key, i, e + 2, Escape) && s[e + 1] == '}'
  {
    t := Tag(Value, key, i, e + 2, Escape);
    Markers(s, 0, a, blank + key + rest, i, e);
    AtMarker(s, e, "}}");
    SpacedParts(s, i + 2, blank, key, rest);
    SpacedKeyIs(s, i + 2, blank, key, e);
    MarkedPlain(s, i, e, key);
    NextTag(s, 0, i, e, t);
  }

  lemma SpacedParts(s: string, i: nat, blank: string, key: string, rest: string)
    requires At(s, i, blank + key + rest) && Blanks(blank) && PlainKey(key)
    ensures At(s, i, blank) && At(s, i + |blank|, key)
    ensures rest != "" ==> i + |blank| + |key| < |s| && s[i + |blank| + |key|] == rest[0]
    ensures s[i] !in {'#', '^', '/', '!', '>', '=', '&', '{'}
  {
    AtParts(s, i, blank + key, rest);
    AtParts(s, i, blank, key);
    AtChar(s, i + |blank|, key, 0);
    if blank != "" {
      AtChar(s, i, blank, 0);
    }
    if rest != "" {
      AtChar(s, i + |blank| + |key|, rest, 0);
    }
  }

  /** With more text between the third closing brace and the other two a raw variable ends at these, and the text in
      between is ignored. */
  lemma RawWithRest(a: string, key: string, rest: string, b: string, stack: seq<Data>)
    requires PlainText(a) && PlainKey(key) && rest != "" && Without(rest, '}') && PlainText(b)
    ensures Rendered(a + Enclosed(['{'] + key + "}" + rest) + b, stack) ==
            Outcome(a + (StringOf(ValueOf(stack, key)) + b), -1)
  {
    RawScanned(a + Enclosed(['{'] + key + "}" + rest) + b, a, key, rest, b);
    OneTagEval(a, Variable(key, Raw), b, stack);
  }

  lemma RawScanned(s: string, a: string, key: string, rest: string, b: string)
    requires s == a + Enclosed(['{'] + key + "}" + rest) + b && PlainText(a) && PlainKey(key) && PlainText(b)
    requires rest != "" && Without(rest, '}')
    ensures Scan(s, 0, |s|) == [Literal(a), Variable(key, Raw)] + [Literal(b)]
  {
    var t := RawWithRestFound(s, a, key, rest, b);
    TextBehind(s, a, t, Variable(key, Raw), b);
  }

  lemma RawWithRestFound(s: string, a: string, key: string, rest: string, b: string) returns (t: Tag)
    requires s == a + Enclosed(['{'] + key + "}" + rest) + b && PlainText(a) && PlainKey(key)
    requires rest != "" && Without(rest, '}')
    ensures OneTag(s, a, t, Variable(key, Raw), b)
  {
    var inner, i := ['{'] + key + "}" + rest, |a|;
    BetweenParts(s, a, inner, b);
    AtParts(s, i, "{{" + inner, "}}");
    AtParts(s, i, "{{", inner);
    t := RawTag(s, a, key, rest, i, i + 2 + |inner|);
  }

  lemma RawTag(s: string, a: string, key: string, rest: string, i: nat, e: nat) returns (t: Tag)
    requires i == |a| && e == i + 4 + |key| + |rest| && PlainText(a) && PlainKey(key) && rest != ""
             && Without(rest, '}')
    requires At(s, 0, a) && At(s, i, "{{") && At(s, i + 2, ['{'] + key + "}" + rest) && At(s, e, "}}")
    ensures t == FindTag(s, 0, |s|) && t == Tag(Value, key, i, e + 2, Raw) && s[e + 1] == '}'
  {
    t := Tag(Value, key, i, e + 2, Raw);
    AtMarker(s, i, "{{");
    AtMarker(s, e, "}}");
    MarkerBehind(s, 0, a, "{{");
    RawParts(s, i, key, rest, e);
    KeyIs(s, i + 3, key);
    MarkedRawWithRest(s, i, e, key, i + 3 + |key|);
    NextTag(s, 0, i, e, t);
  }

  lemma MarkedRawWithRest(s: string, i: nat, e: nat, key: string, c: nat)
    requires i + 3 <= c < e && HasAt(s, "{{", i) && HasAt(s, "}}", e) && s[i + 2] == '{' && IndexOf(s, "}", i + 3) == c
    requires s[c] == '}' && TagName(s, i + 3, c) == key
    ensures Marked(s, i, e) == Tag(Value, key, i, e + 2, Raw)
  {
  }

  lemma {:induction false} FirstAt(s: string, pos: nat, e: nat, marker: string)
    requires pos <= e && HasAt(s, marker, e) && forall j :: pos <= j < e ==> !HasAt(s, marker, j)
    ensures IndexOf(s, marker, pos) == e
    decreases e - pos
  {
    if pos < e {
      FirstAt(s, pos + 1, e, marker);
    }
  }

  lemma RawParts(s: string, i: nat, key: string, rest: string, e: nat)
    requires At(s, i + 2, ['{'] + key + "}" + rest) && At(s, e, "}}") && e == i + 4 + |key| + |rest|
    requires PlainKey(key) && rest != "" && Without(rest, '}')
    ensures s[i + 2] == '{' && At(s, i + 3, key) && s[i + 3 + |key|] == '}'
    ensures IndexOf(s, "}", i + 3) == i + 3 + |key| && IndexOf(s, "}}", i + 2) == e
  {
    var inner, c := ['{'] + key + "}" + rest, i + 3 + |key|;
    AtParts(s, i + 2, ['{'] + key + "}", rest);
    AtParts(s, i + 2, ['{'] + key, "}");
    AtParts(s, i + 2, ['{'], key);
    AtChar(s, i + 2, ['{'], 0);
    AtChar(s, c, "}", 0);
    BraceBehind(s, i + 3, key, c);
    AtMarker(s, e, "}}");
    forall j | i + 2 <= j < e
      ensures !HasAt(s, "}}", j)
    {
      NoBraces(s, i, key, rest, e, j);
    }
    FirstAt(s, i + 2, e, "}}");
  }

  lemma NoBraces(s: string, i: nat, key: string, rest: string, e: nat, j: nat)
    requires i + 2 <= j < e == i + 4 + |key| + |rest| <= |s| && s[i + 2..e] == ['{'] + key + "}" + rest
    requires PlainKey(key) && rest != "" && Without(rest, '}')
    ensures !HasAt(s, "}}", j)
  {
    if HasAt(s, "}}", j) {
      ClosingBrace(s, j);
    }
  }
}
