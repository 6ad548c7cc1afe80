/**
  Errors in terms of the text of a template: the output and the position of the error for an end tag without a
  start tag, a start tag without an end tag and an end tag with another key.
 */
module TemplateErrors {
  import opened Tags
  import opened TagOrder
  import opened Templates
  import opened TemplateScan
  import opened TemplateText
  import opened TemplateLaws
  import opened SingleTags

  lemma ScanBroken(s: string, a: string, p: nat, stack: seq<Data>)
    requires var t := FindTag(s, 0, |s|);
             && t.kind != Null && t.start == |a| && 0 < t.end <= |s| + 1 && Boundary(s, t.end)
             && TagNode(s, t, |s|) == Broken(p)
    requires At(s, 0, a)
    ensures Rendered(s, stack) == Outcome(a, p)
  {
    MidIs(s, 0, a);
    EvalTwo(a, Broken(p), [], stack);
    assert [Literal(a), Broken(p)] + [] == [Literal(a), Broken(p)];
  }

  /** An end tag without a start tag: the text before it and an error at its start. */
  lemma StrayEnd(a: string, key: string, b: string, k: nat, stack: seq<Data>)
    requires PlainKey(key) && Between(a + Enclosed(['/'] + key) + b, a, ['/'] + key, b, k)
    ensures Rendered(a + Enclosed(['/'] + key) + b, stack) == Outcome(a, |a|)
  {
    var s, e := a + Enclosed(['/'] + key) + b, |a| + 3 + |key|;
    BetweenTag(s, a, ['/'] + key, b, k);
    SectionTag(s, 0, a, '/', key, |a|, e, k, EndAt(key, |a|));
    ScanBroken(s, a, |a|, stack);
  }

  lemma UnclosedNode(s: string, t: Tag, e: Tag)
    requires OpensSection(t) && Boundary(s, t.end) && 0 < t.end <= |s| + 1 && e == FindTag(s, t.end, |s|)
    ensures e.kind == Null ==> TagNode(s, t, |s|) == Broken(t.start)
    ensures e.kind == SectionEnd && e.key != t.key ==> TagNode(s, t, |s|) == Broken(e.start)
  {
    EndTagUnfold(s, t.end, 1, |s|, e);
  }

  /** A start tag without an end tag: an error at its start, whatever the value is. */
  lemma NeverClosed(a: string, key: string, inverted: bool, b: string, k: nat, stack: seq<Data>)
    requires PlainKey(key) && Between(a + StartTag(key, inverted) + b, a, StartText(key, inverted), b, k)
    ensures Rendered(a + StartTag(key, inverted) + b, stack) == Outcome(a, |a|)
  {
    var s, t := a + StartTag(key, inverted) + b, StartAt(key, inverted, |a|);
    BetweenTag(s, a, StartText(key, inverted), b, k);
    SectionTag(s, 0, a, if inverted then '^' else '#', key, |a|, t.end - 2, k, t);
    NoTagIn(s, t.end, b);
    UnclosedNode(s, t, NO_TAG);
    ScanBroken(s, a, |a|, stack);
  }

  function StartText(key: string, inverted: bool): string {
    [if inverted then '^' else '#'] + key
  }

  lemma WrongEndRendered(s: string, a: string, t: Tag, e: Tag, stack: seq<Data>)
    requires t == FindTag(s, 0, |s|) && OpensSection(t) && t.start == |a| && At(s, 0, a)
    requires 0 < t.end <= |s| && s[t.end - 1] == '}'
    requires e == FindTag(s, t.end, |s|) && e.kind == SectionEnd && e.key != t.key
    ensures Rendered(s, stack) == Outcome(a, e.start)
  {
    UnclosedNode(s, t, e);
    ScanBroken(s, a, e.start, stack);
  }

  /** What follows from the tags at two positions. */
  ghost predicate WrongEndRule(tagAt: nat -> Tag, rendered: Outcome, s: string, a: string, t: Tag, e: Tag) {
    && tagAt(0) == t && OpensSection(t) && t.start == |a| && At(s, 0, a) && 0 < t.end <= |s| && s[t.end - 1] == '}'
    && tagAt(t.end) == e && e.kind == SectionEnd && e.key != t.key ==>
      rendered == Outcome(a, e.start)
  }

  ghost predicate EndRule(tagAt: nat -> Tag, s: string, i: nat, inner: string, b: string, key: string, q: nat) {
    && PlainText(b) && PlainKey(key) && At(s, i, Enclosed(inner)) && At(s, i + 4 + |inner|, b)
    && At(s, q, Enclosed(['/'] + key)) && q == i + 4 + |inner| + |b| ==>
      tagAt(i + 4 + |inner|) == EndAt(key, q)
  }

  lemma EndFollows(tagAt: nat -> Tag, s: string, i: nat, inner: string, b: string, key: string, q: nat)
    requires OneLine(s) && Finds(tagAt, s)
    ensures EndRule(tagAt, s, i, inner, b, key, q)
  {
    if PlainText(b) && PlainKey(key) && At(s, i, Enclosed(inner)) && At(s, i + 4 + |inner|, b)
       && At(s, q, Enclosed(['/'] + key)) && q == i + 4 + |inner| + |b| {
      EnclosedStarts(s, i, inner);
      SignedWithout('/', key);
      EndFound(s, i + 4 + |inner|, b, key, q, i);
    }
  }

  lemma WrongEndByRules(tagAt: nat -> Tag, rendered: Outcome, s: string, a: string, key: string, inverted: bool,
                        b: string, other: string, c: string, q: nat)
    requires PlainText(a) && PlainKey(key) && PlainText(b) && PlainKey(other) && other != key
    requires s == a + StartTag(key, inverted) + (b + Enclosed(['/'] + other) + c) && q == |a| + 5 + |key| + |b|
    requires StartFound(tagAt, s, 0, a, key, inverted, q)
    requires EndRule(tagAt, s, |a|, StartText(key, inverted), b, other, q)
    requires WrongEndRule(tagAt, rendered, s, a, StartAt(key, inverted, |a|), EndAt(other, q))
    ensures rendered == Outcome(a, q)
  {
    WrongEndParts(s, a, StartText(key, inverted), b, ['/'] + other, c);
    EnclosedStarts(s, q, ['/'] + other);
  }

  /** A start tag and an end tag with another key: an error at the end tag. */
  lemma WrongEnd(a: string, key: string, inverted: bool, b: string, other: string, c: string, stack: seq<Data>)
    requires PlainText(a) && PlainKey(key) && PlainText(b) && PlainKey(other) && other != key && PlainText(c)
    ensures Rendered(a + StartTag(key, inverted) + (b + Enclosed(['/'] + other) + c), stack) ==
            Outcome(a, |a| + 5 + |key| + |b|)
  {
    var s, q := a + StartTag(key, inverted) + (b + Enclosed(['/'] + other) + c), |a| + 5 + |key| + |b|;
    var tagAt := (pos: nat) => FindTag(s, pos, |s|);
    WrongEndOneLine(a, StartText(key, inverted), b, ['/'] + other, c);
    FoundStart(tagAt, s, 0, a, key, inverted, q);
    EndFollows(tagAt, s, |a|, StartText(key, inverted), b, other, q);
    WrongEndFollows(tagAt, s, a, StartAt(key, inverted, |a|), EndAt(other, q), stack);
    WrongEndByRules(tagAt, Rendered(s, stack), s, a, key, inverted, b, other, c, q);
  }

  lemma WrongEndFollows(tagAt: nat -> Tag, s: string, a: string, t: Tag, e: Tag, stack: seq<Data>)
    requires Finds(tagAt, s)
    ensures WrongEndRule(tagAt, Rendered(s, stack), s, a, t, e)
  {
    if tagAt(0) == t && OpensSection(t) && t.start == |a| && At(s, 0, a) && 0 < t.end <= |s| && s[t.end - 1] == '}'
       && tagAt(t.end) == e && e.kind == SectionEnd && e.key != t.key {
      WrongEndRendered(s, a, t, e, stack);
    }
  }

  lemma EndFound(s: string, pos: nat, b: string, other: string, q: nat, k: nat)
    requires OneLine(s) && PlainText(b) && PlainKey(other) && At(s, pos, b) && At(s, q, Enclosed(['/'] + other))
    requires q == pos + |b| && k < pos && !IsSpace(s[k]) && Without(['/'] + other, '}')
    ensures FindTag(s, pos, |s|) == EndAt(other, q)
  {
    TagIsHere(s, pos, b, ['/'] + other);
    SectionTag(s, pos, b, '/', other, q, q + 3 + |other|, k, EndAt(other, q));
  }

  lemma EnclosedStarts(s: string, i: nat, inner: string)
    requires At(s, i, Enclosed(inner))
    ensures s[i] == '{'
  {
    AtChar(s, i, Enclosed(inner), 0);
  }

  lemma WrongEndParts(s: string, a: string, first: string, b: string, second: string, c: string)
    requires s == a + Enclosed(first) + (b + Enclosed(second) + c)
    ensures var m, q := |a| + 4 + |first|, |a| + 4 + |first| + |b|;
            At(s, 0, a) && At(s, |a|, Enclosed(first)) && At(s, m, b) && At(s, q, Enclosed(second))
  {
    var m := |a| + 4 + |first|;
    BetweenParts(s, a, first, b + Enclosed(second) + c);
    AtParts(s, m, b + Enclosed(second), c);
    AtParts(s, m, b, Enclosed(second));
  }

  lemma WrongEndOneLine(a: string, first: string, b: string, second: string, c: string)
    requires OneLine(a) && OneLine(first) && OneLine(b) && OneLine(second) && OneLine(c)
    ensures OneLine(a + Enclosed(first) + (b + Enclosed(second) + c))
  {
    EnclosedOneLine(first);
    EnclosedOneLine(second);
    JoinedOneLine(a, Enclosed(first));
    JoinedOneLine(b, Enclosed(second));
    JoinedOneLine(b + Enclosed(second), c);
    JoinedOneLine(a + Enclosed(first), b + Enclosed(second) + c);
  }
}
