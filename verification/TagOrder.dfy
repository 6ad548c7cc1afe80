/**
  Tags never overlap: scanning on from the end of a tag, the next tag starts at or after that end,
  even when it is widened to its whole line.  This is what makes a second scan of a section's body
  see the tags of the first scan.
 */
module TagOrder {
  import opened Tags

  /** A position where a scan can start: the start of the text, or behind the end of a tag. */
  predicate Boundary(s: string, pos: nat) {
    || pos == 0 || pos > |s| || s[pos - 1] == '\n' || s[pos - 1] == '}'
    || (pos >= 2 && s[pos - 2] == '}')
  }

  lemma MarkerChars(s: string, i: nat, e: nat)
    requires HasAt(s, "{{", i) && HasAt(s, "}}", e)
    ensures s[i] == '{' && s[i + 1] == '{' && s[e] == '}' && s[e + 1] == '}'
  {
    assert s[i + 0] == "{{"[0] && s[i + 1] == "{{"[1];
    ClosingBrace(s, e);
  }

  lemma LineEndBoundary(s: string, i: nat)
    requires 0 < i <= |s| + 1
    ensures Boundary(s, LineEnd(s, i))
  {
    LineEndIs(s, i);
  }

  lemma WidenedRange(t: Tag, s: string)
    requires t.start <= |s| && 0 < t.end <= |s| + 1
    ensures var w := Widened(t, s);
            && w.start <= t.start && t.end <= w.end <= |s| + 1
            && (w.start < t.start ==> w.start == LineStart(s, t.start) && AllSpace(s, w.start, t.start))
            && (w.end == t.end || Boundary(s, w.end))
  {
    LineEndBoundary(s, t.end);
  }

  /** The range of a tag around its markers. */
  lemma TagRange(s: string, i: nat, e: nat)
    requires i + 2 <= e && HasAt(s, "{{", i) && HasAt(s, "}}", e)
    ensures var t := TagAt(s, i, e);
            && t.start <= i && e + 2 <= t.end <= |s| + 1
            && (t.start < i ==> t.start == LineStart(s, i) && AllSpace(s, t.start, i))
            && Boundary(s, t.end)
  {
    MarkerChars(s, i, e);
    WidenedRange(Marked(s, i, e), s);
  }

  /** A line of white space up to a marker cannot begin before a boundary. */
  lemma LineAfterBoundary(s: string, pos: nat, i: nat)
    requires Boundary(s, pos) && pos <= i <= |s| && AllSpace(s, LineStart(s, i), i)
    ensures pos <= LineStart(s, i)
  {
    LineStartIs(s, i);
  }

  /** The tag t starts at pos or later, before endPos, and ends further on, at a boundary. */
  predicate Follows(s: string, pos: nat, endPos: nat, t: Tag) {
    pos <= t.start < t.end <= |s| + 1 && pos < t.end && Boundary(s, t.end) && t.start < endPos && t.start <= |s|
  }

  /** What a scan from a boundary finds. */
  lemma FoundTag(s: string, pos: nat, endPos: nat)
    requires Boundary(s, pos)
    ensures FindTag(s, pos, endPos).kind != Null ==> Follows(s, pos, endPos, FindTag(s, pos, endPos))
  {
    var i := IndexOf(s, "{{", pos);
    if i <= |s| && i < endPos {
      var e := IndexOf(s, "}}", i + 2);
      if e <= |s| {
        FoundRange(s, pos, endPos, i, e);
      }
    }
  }

  lemma FoundRange(s: string, pos: nat, endPos: nat, i: nat, e: nat)
    requires Boundary(s, pos) && pos <= i < endPos && i + 2 <= e && HasAt(s, "{{", i) && HasAt(s, "}}", e)
    ensures Follows(s, pos, endPos, TagAt(s, i, e))
  {
    TagRange(s, i, e);
    if TagAt(s, i, e).start < i {
      LineAfterBoundary(s, pos, i);
    }
  }

  /** The limit of a scan does not change what it finds, as long as the tag lies before the limit. */
  lemma SameTag(s: string, pos: nat, endPos: nat)
    requires Boundary(s, pos)
    ensures var t := FindTag(s, pos, |s|);
            && (t.kind != Null && (t.end <= endPos || endPos == |s|) ==> FindTag(s, pos, endPos) == t)
            && (t.kind != Null && endPos <= t.start ==> FindTag(s, pos, endPos) == NO_TAG)
            && (t.kind == Null && endPos <= |s| ==> FindTag(s, pos, endPos) == NO_TAG)
  {
    var i := IndexOf(s, "{{", pos);
    if i < |s| {
      var e := IndexOf(s, "}}", i + 2);
      if e <= |s| {
        TagRange(s, i, e);
      }
    }
  }
}
