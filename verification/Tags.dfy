/**
  The tags of a template with the markers {{ and }}: where the next tag is, what it says, and how a
  tag that stands alone on its line takes the whole line with it.
 */
module Tags {

  datatype TagType = Null | Value | SectionStart | InvertedSectionStart | SectionEnd | Partial | Comment | SetDelimiter

  datatype EscapeMode = Escape | Unescape | Raw

  datatype Tag = Tag(kind: TagType, key: string, start: nat, end: nat, mode: EscapeMode)

  const NO_TAG: Tag := Tag(Null, "", 0, 0, Escape)

  /** The white space characters of ASCII. */
  predicate IsSpace(c: char) {
    c == ' ' || '\t' <= c <= '\r'
  }

  /** s holds p at position i. */
  predicate HasAt(s: string, p: string, i: nat) {
    i + |p| <= |s| && forall k :: 0 <= k < |p| ==> s[i + k] == p[k]
  }

  /** QString::indexOf: the first position from pos on at which s holds p, or |s| + 1. */
  function IndexOf(s: string, p: string, pos: nat): (i: nat)
    ensures i <= |s| ==> pos <= i && HasAt(s, p, i)
    ensures i <= |s| + 1
    decreases |s| + 1 - pos
  {
    if pos > |s| then |s| + 1 else if HasAt(s, p, pos) then pos else IndexOf(s, p, pos + 1)
  }

  lemma {:induction false} IndexOfFirst(s: string, p: string, pos: nat, k: nat)
    requires pos <= k <= |s| && HasAt(s, p, k)
    ensures IndexOf(s, p, pos) <= k
    decreases k - pos
  {
    if pos < k {
      IndexOfFirst(s, p, pos + 1, k);
    }
  }

  /** The first position from pos on that is not white space. */
  function SkipSpace(s: string, pos: nat): (i: nat)
    requires pos <= |s|
    ensures pos <= i <= |s|
    decreases |s| - pos
  {
    if pos < |s| && IsSpace(s[pos]) then SkipSpace(s, pos + 1) else pos
  }

  /** The text from pos up to the next white space or the end position. */
  function Word(s: string, pos: nat, endPos: nat): string
    requires endPos <= |s|
    decreases endPos - pos
  {
    if pos < endPos && !IsSpace(s[pos]) then [s[pos]] + Word(s, pos + 1, endPos) else ""
  }

  /** The key in a tag: the first word after the tag's type character. */
  function TagName(s: string, pos: nat, endPos: nat): string
    requires pos <= endPos < |s| && !IsSpace(s[endPos])
  {
    Word(s, SkipSpace(s, pos), endPos)
  }

  // ------------------------------------------------------------------ whole lines

  /** The start of the line holding position i. */
  function LineStart(s: string, i: nat): (j: nat)
    requires i <= |s|
    ensures j <= i
  {
    if i > 0 && s[i - 1] != '\n' then LineStart(s, i - 1) else i
  }

  /** One past the line break that ends the line of position i - 1; one past the end of the text in the
      last line, which has no line break. */
  function LineEnd(s: string, i: nat): (j: nat)
    requires 0 < i <= |s| + 1
    ensures i <= j <= |s| + 1
    decreases |s| + 1 - i
  {
    if i <= |s| && s[i - 1] != '\n' then LineEnd(s, i + 1) else i
  }

  lemma {:induction false} LineStartIs(s: string, i: nat)
    requires i <= |s|
    ensures LineStart(s, i) > 0 ==> s[LineStart(s, i) - 1] == '\n'
    ensures forall k :: LineStart(s, i) <= k < i ==> s[k] != '\n'
  {
    if i > 0 && s[i - 1] != '\n' {
      LineStartIs(s, i - 1);
    }
  }

  lemma {:induction false} LineEndIs(s: string, i: nat)
    requires 0 < i <= |s| + 1
    ensures LineEnd(s, i) <= |s| ==> s[LineEnd(s, i) - 1] == '\n'
    ensures forall k :: i - 1 <= k < LineEnd(s, i) - 1 && k < |s| ==> s[k] != '\n'
    decreases |s| + 1 - i
  {
    if i <= |s| && s[i - 1] != '\n' {
      LineEndIs(s, i + 1);
    }
  }

  predicate AllSpace(s: string, i: nat, j: nat) {
    forall k :: i <= k < j && k < |s| ==> IsSpace(s[k])
  }

  /** Only white space shares the line with the range from i to j. */
  predicate Standalone(s: string, i: nat, j: nat)
    requires i <= |s| && 0 < j <= |s| + 1
  {
    AllSpace(s, LineStart(s, i), i) && AllSpace(s, j, LineEnd(s, j))
  }

  /** A tag that is not a value and stands alone takes its whole line. */
  function Widened(t: Tag, s: string): Tag
    requires t.start <= |s| && 0 < t.end <= |s| + 1
  {
    if Standalone(s, t.start, t.end) then t.(start := LineStart(s, t.start), end := LineEnd(s, t.end)) else t
  }

  lemma {:induction false} LineStartAt(s: string, i: nat, a: nat)
    requires a <= i <= |s| && (a == 0 || s[a - 1] == '\n') && forall k :: a <= k < i ==> s[k] != '\n'
    ensures LineStart(s, i) == a
  {
    if a < i {
      LineStartAt(s, i - 1, a);
    }
  }

  lemma {:induction false} LineEndAt(s: string, i: nat, b: nat)
    requires 0 < i <= b + 1 && b <= |s| && (b == |s| || s[b] == '\n') && forall k :: i - 1 <= k < b ==> s[k] != '\n'
    ensures LineEnd(s, i) == b + 1
    decreases b + 1 - i
  {
    if i <= b {
      LineEndAt(s, i + 1, b);
    }
  }

  /** White space that does not end the line. */
  predicate Blank(c: char) {
    c in {' ', '\t', '\U{0b}', '\U{0c}', '\r'}
  }

  /** Alone between the line break before a and the one at b, or the start and the end of the text, a tag takes
      everything from a through the line break. */
  lemma TakesLine(t: Tag, s: string, a: nat, b: nat)
    requires a <= t.start <= |s| && 0 < t.end <= b <= |s| && s[t.end - 1] != '\n'
    requires (a == 0 || s[a - 1] == '\n') && (b == |s| || s[b] == '\n')
    requires forall k :: a <= k < t.start || t.end <= k < b ==> Blank(s[k])
    ensures Widened(t, s) == t.(start := a, end := b + 1)
  {
    LineStartAt(s, t.start, a);
    LineEndAt(s, t.end, b);
    assert b < |s| ==> IsSpace(s[b]);
  }

  /** With another character on its line it stays as it is. */
  lemma SharesLine(t: Tag, s: string, k: nat)
    requires t.start <= |s| && 0 < t.end <= |s| && s[t.end - 1] != '\n' && k < |s|
    requires s[k] != '\n' && !Blank(s[k])
    requires if k < t.start then forall j :: k <= j < t.start ==> s[j] != '\n'
             else t.end <= k && forall j :: t.end <= j <= k ==> s[j] != '\n'
    ensures Widened(t, s) == t
  {
    LineStartIs(s, t.start);
    LineEndIs(s, t.end);
    if k < t.start {
      assert LineStart(s, t.start) <= k;
    } else {
      assert k < LineEnd(s, t.end);
    }
  }

  // ------------------------------------------------------------------ the tag at a marker

  /** What the text between the opening marker at i and the closing marker at e says. */
  function Marked(s: string, i: nat, e: nat): (t: Tag)
    requires i + 2 <= e && HasAt(s, "{{", i) && HasAt(s, "}}", e)
    ensures t.kind != Null && t.start == i && (t.end == e + 2 || (t.kind == Value && t.end == e + 3))
  {
    ClosingBrace(s, e);
    var c, end := s[i + 2], e + 2;
    if c == '#' then Tag(SectionStart, TagName(s, i + 3, e), i, end, Escape)
    else if c == '^' then Tag(InvertedSectionStart, TagName(s, i + 3, e), i, end, Escape)
    else if c == '/' then Tag(SectionEnd, TagName(s, i + 3, e), i, end, Escape)
    else if c == '!' then Tag(Comment, "", i, end, Escape)
    else if c == '>' then Tag(Partial, TagName(s, i + 3, e), i, end, Escape)
    else if c == '=' then Tag(SetDelimiter, "", i, end, Escape)
    else if c == '&' then Tag(Value, TagName(s, i + 3, e), i, end, Unescape)
    else if c == '{' then
      var close := IndexOf(s, "}", i + 3);
      CloseBrace(s, i, e);
      if close == e then Tag(Value, TagName(s, i + 3, e), i, end + 1, Raw)
      else Tag(Value, TagName(s, i + 3, close), i, end, Raw)
    else Tag(Value, TagName(s, i + 2, e), i, end, Escape)
  }

  /** The tag whose opening marker is at position i and whose closing marker is at position e. */
  function TagAt(s: string, i: nat, e: nat): (t: Tag)
    requires i + 2 <= e && HasAt(s, "{{", i) && HasAt(s, "}}", e)
    ensures t.kind != Null
  {
    var t := Marked(s, i, e);
    if t.kind == Value then t else Widened(t, s)
  }

  lemma ClosingBrace(s: string, e: nat)
    requires HasAt(s, "}}", e)
    ensures s[e] == '}' && s[e + 1] == '}'
  {
    assert s[e + 0] == "}}"[0] && s[e + 1] == "}}"[1];
  }

  /** The first brace after {{{ is at or before the closing marker. */
  lemma CloseBrace(s: string, i: nat, e: nat)
    requires i + 2 <= e && HasAt(s, "{{", i) && HasAt(s, "}}", e) && s[i + 2] == '{'
    ensures i + 3 <= IndexOf(s, "}", i + 3) <= e && s[IndexOf(s, "}", i + 3)] == '}'
  {
    ClosingBrace(s, e);
    IndexOfFirst(s, "}", i + 3, e);
    var c := IndexOf(s, "}", i + 3);
    assert s[c + 0] == "}"[0];
  }

  /** The first tag whose marker lies between pos and endPos; no tag when there is no such marker or it
      is never closed. */
  function FindTag(s: string, pos: nat, endPos: nat): Tag {
    var i := IndexOf(s, "{{", pos);
    if i > |s| || i >= endPos then NO_TAG
    else
      var e := IndexOf(s, "}}", i + 2);
      if e > |s| then NO_TAG else TagAt(s, i, e)
  }
}
