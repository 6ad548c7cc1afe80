/**
  What the renderer makes of a template: it looks for the end tag of each section first and then scans the
  body again, up to that tag.  Here that scan yields a tree, which has a Broken node where a section is not
  closed or not closed by its own tag.  The tree of a well-formed template is its parse tree.
 */
module TemplateScan {
  import opened Tags
  import opened TagOrder
  import opened Templates

  predicate OpensSection(t: Tag) {
    t.kind == SectionStart || t.kind == InvertedSectionStart
  }

  /** The end tag a scan from pos reaches after leaving depth sections. */
  function EndTag(s: string, pos: nat, depth: nat, endPos: nat): (e: Tag)
    requires Boundary(s, pos) && depth > 0
    ensures e.kind in {Null, SectionEnd}
    decreases |s| + 2 - pos
  {
    var t := FindTag(s, pos, endPos);
    FoundTag(s, pos, endPos);
    if t.kind == Null then t
    else if t.kind == SectionStart || t.kind == InvertedSectionStart then EndTag(s, t.end, depth + 1, endPos)
    else if t.kind == SectionEnd then if depth == 1 then t else EndTag(s, t.end, depth - 1, endPos)
    else EndTag(s, t.end, depth, endPos)
  }

  /** One round of the scan for the end tag. */
  lemma EndTagUnfold(s: string, pos: nat, depth: nat, endPos: nat, t: Tag)
    requires Boundary(s, pos) && depth > 0 && t == FindTag(s, pos, endPos)
    ensures t.kind != Null ==> Boundary(s, t.end) && pos < t.end <= |s| + 1
    ensures t.kind == Null ==> EndTag(s, pos, depth, endPos) == t
    ensures t.kind == SectionEnd && depth == 1 ==> EndTag(s, pos, depth, endPos) == t
    ensures t.kind == SectionEnd && depth > 1 ==> EndTag(s, pos, depth, endPos) == EndTag(s, t.end, depth - 1, endPos)
    ensures OpensSection(t) ==> EndTag(s, pos, depth, endPos) == EndTag(s, t.end, depth + 1, endPos)
    ensures t.kind != Null && t.kind != SectionEnd && !OpensSection(t) ==>
              EndTag(s, pos, depth, endPos) == EndTag(s, t.end, depth, endPos)
  {
    FoundTag(s, pos, endPos);
  }

  lemma {:induction false} EndTagRange(s: string, pos: nat, depth: nat, endPos: nat)
    requires Boundary(s, pos) && depth > 0
    ensures EndTag(s, pos, depth, endPos).kind != Null ==> Follows(s, pos, endPos, EndTag(s, pos, depth, endPos))
    decreases |s| + 2 - pos
  {
    var t := FindTag(s, pos, endPos);
    FoundTag(s, pos, endPos);
    EndTagUnfold(s, pos, depth, endPos, t);
    if OpensSection(t) {
      EndTagRange(s, t.end, depth + 1, endPos);
    } else if t.kind == SectionEnd && depth > 1 {
      EndTagRange(s, t.end, depth - 1, endPos);
    } else if t.kind != Null && t.kind != SectionEnd {
      EndTagRange(s, t.end, depth, endPos);
    }
  }

  // ------------------------------------------------------------------ the tree of a scan

  /** The nodes between two positions, up to the first Broken one. */
  function Scan(s: string, pos: nat, endPos: nat): seq<Node>
    requires Boundary(s, pos)
    decreases |s| + 2 - pos, 0
  {
    var t := FindTag(s, pos, endPos);
    FoundTag(s, pos, endPos);
    if t.kind == Null then [Literal(Mid(s, pos, endPos))]
    else
      var n, next := TagNode(s, t, endPos), TagNext(s, t, endPos);
      [Literal(Mid(s, pos, t.start)), n] + if n.Broken? then [] else Scan(s, next, endPos)
  }

  /** The node of the tag t. */
  function TagNode(s: string, t: Tag, endPos: nat): (n: Node)
    requires 0 < t.end <= |s| + 1 && Boundary(s, t.end)
    ensures !n.Broken? ==> t.end <= TagNext(s, t, endPos) <= |s| + 1 && Boundary(s, TagNext(s, t, endPos))
    decreases |s| + 2 - t.end, 2
  {
    match t.kind
    case Value => Variable(t.key, t.mode)
    case SectionStart => SectionNode(s, t, endPos, false)
    case InvertedSectionStart => SectionNode(s, t, endPos, true)
    case SectionEnd => Broken(t.start)
    case _ => Remark
  }

  function SectionNode(s: string, t: Tag, endPos: nat, inverted: bool): (n: Node)
    requires 0 < t.end <= |s| + 1 && Boundary(s, t.end)
    ensures !n.Broken? ==> Follows(s, t.end, endPos, EndTag(s, t.end, 1, endPos))
    decreases |s| + 2 - t.end, 1
  {
    var e := EndTag(s, t.end, 1, endPos);
    EndTagRange(s, t.end, 1, endPos);
    if e.kind == Null then Broken(t.start)
    else if e.key != t.key then Broken(e.start)
    else Section(t.key, inverted, Scan(s, t.end, e.start))
  }

  /** The position behind the tag t or behind the section it opens. */
  function TagNext(s: string, t: Tag, endPos: nat): nat
    requires Boundary(s, t.end)
  {
    if OpensSection(t) then EndTag(s, t.end, 1, endPos).end else t.end
  }

  /** No {{= tag, which would change the markers, is met by scanning from pos to the end of the text. */
  ghost predicate NoDelimiterTags(s: string, pos: nat)
    requires Boundary(s, pos)
    decreases |s| + 2 - pos
  {
    var t := FindTag(s, pos, |s|);
    FoundTag(s, pos, |s|);
    t.kind != SetDelimiter && (t.kind != Null ==> NoDelimiterTags(s, t.end))
  }

  ghost predicate NoneBehind(s: string, t: Tag) {
    t.kind != Null ==> Boundary(s, t.end) && NoDelimiterTags(s, t.end)
  }

  /** A scan with a limit meets the same tags. */
  lemma LimitedScan(s: string, pos: nat, endPos: nat)
    requires Boundary(s, pos) && NoDelimiterTags(s, pos) && endPos <= |s|
    ensures FindTag(s, pos, endPos).kind != SetDelimiter && NoneBehind(s, FindTag(s, pos, endPos))
    ensures FindTag(s, pos, endPos).kind != Null ==> FindTag(s, pos, endPos) == FindTag(s, pos, |s|)
  {
    FoundTag(s, pos, endPos);
    assert FindTag(s, pos, endPos).kind != Null ==> FindTag(s, pos, endPos) == FindTag(s, pos, |s|);
  }

  lemma {:induction false} EndTagKeepsMarkers(s: string, pos: nat, depth: nat, endPos: nat)
    requires Boundary(s, pos) && depth > 0 && NoDelimiterTags(s, pos) && endPos <= |s|
    ensures NoneBehind(s, EndTag(s, pos, depth, endPos))
    decreases |s| + 2 - pos
  {
    var t := FindTag(s, pos, endPos);
    LimitedScan(s, pos, endPos);
    EndTagUnfold(s, pos, depth, endPos, t);
    if OpensSection(t) {
      EndTagKeepsMarkers(s, t.end, depth + 1, endPos);
    } else if t.kind == SectionEnd && depth > 1 {
      EndTagKeepsMarkers(s, t.end, depth - 1, endPos);
    } else if t.kind != Null && t.kind != SectionEnd {
      EndTagKeepsMarkers(s, t.end, depth, endPos);
    }
  }

  // ------------------------------------------------------------------ well-formed text, tag by tag

  /** Where the text that Parse reads from pos ends. */
  function RegionEnd(s: string, close: Tag): nat {
    if close.kind == Null then |s| else close.start
  }

  /** The start tag t of a section whose body is well formed and closed within endPos. */
  ghost predicate ClosedSection(s: string, t: Tag, endPos: nat) {
    && Boundary(s, t.end) && 0 < t.end <= |s| + 1
    && var body := Parse(s, t.end);
       && body.Parsed? && body.close.kind == SectionEnd && body.close.key == t.key
       && (body.close.end <= endPos || endPos == |s|)
  }

  /** The node a tag stands for, and the position behind the tag or behind the section it opens. */
  ghost function NodeOf(s: string, t: Tag): Node {
    match t.kind
    case Value => Variable(t.key, t.mode)
    case SectionStart => Section(t.key, false, BodyOf(s, t).nodes)
    case InvertedSectionStart => Section(t.key, true, BodyOf(s, t).nodes)
    case _ => Remark
  }

  ghost function BodyOf(s: string, t: Tag): (p: Parsed)
    ensures p.Parsed?
  {
    if Boundary(s, t.end) && Parse(s, t.end).Parsed? then Parse(s, t.end) else Parsed([], NO_TAG)
  }

  ghost function NextPos(s: string, t: Tag): nat {
    if OpensSection(t) then BodyOf(s, t).close.end else t.end
  }

  /** Well-formed text goes on behind its first tag t. */
  ghost predicate Continues(s: string, pos: nat, t: Tag, endPos: nat)
    requires Boundary(s, pos)
  {
    var next := NextPos(s, t);
    && (t.kind in {Value, Comment, Partial} || OpensSection(t))
    && (OpensSection(t) ==> ClosedSection(s, t, endPos))
    && pos < t.end <= next <= |s| + 1 && Boundary(s, t.end) && Boundary(s, next)
    && Parse(s, next).Parsed? && Parse(s, pos).Parsed? && Parse(s, next).close == Parse(s, pos).close
    && Parse(s, pos).nodes == [Literal(Mid(s, pos, t.start)), NodeOf(s, t)] + Parse(s, next).nodes
  }

  /** The first tag of well-formed text, for a scan limited to a position not before the end of that text:
      either it is the tag that closes the text, or the text goes on behind it. */
  lemma FirstTag(s: string, pos: nat, endPos: nat)
    requires Boundary(s, pos) && Parse(s, pos).Parsed?
    requires RegionEnd(s, Parse(s, pos).close) <= endPos <= |s|
    ensures var t, c := FindTag(s, pos, |s|), Parse(s, pos).close;
            if t.kind == Null || t.kind == SectionEnd then
              t == c && Parse(s, pos).nodes == [Literal(Mid(s, pos, RegionEnd(s, c)))]
            else FindTag(s, pos, endPos) == t && Continues(s, pos, t, endPos)
  {
    var t := FindTag(s, pos, |s|);
    FoundTag(s, pos, |s|);
    SameTag(s, pos, endPos);
    if t.kind != Null && t.kind != SectionEnd {
      ParseUnfold(s, pos, t);
      var next := NextPos(s, t);
      assert t.end <= next <= |s| + 1;
      assert Parse(s, pos).close.kind != Null ==> ClosesAfter(s, next, Parse(s, pos).close);
    }
  }

  lemma ParseUnfold(s: string, pos: nat, t: Tag)
    requires Boundary(s, pos) && t == FindTag(s, pos, |s|) && t.kind != Null && t.kind != SectionEnd
    requires Parse(s, pos).Parsed?
    ensures t.kind in {Value, Comment, Partial} || OpensSection(t)
    ensures Boundary(s, t.end) && pos < t.end <= |s| + 1
    ensures OpensSection(t) ==> ClosedSection(s, t, |s|)
    ensures var next := NextPos(s, t);
            && t.end <= next <= |s| + 1 && Boundary(s, next) && Parse(s, next).Parsed?
            && Parse(s, next).close == Parse(s, pos).close
            && Parse(s, pos).nodes == [Literal(Mid(s, pos, t.start)), NodeOf(s, t)] + Parse(s, next).nodes
  {
    FoundTag(s, pos, |s|);
  }

  /** For a well-formed body the scan ends at the tag that closes the body. */
  lemma {:induction false} EndTagCloses(s: string, pos: nat, depth: nat, endPos: nat)
    requires Boundary(s, pos) && depth > 0
    requires Parse(s, pos).Parsed? && Parse(s, pos).close.kind != Null
    requires Parse(s, pos).close.end <= endPos <= |s| || endPos == |s|
    ensures EndTag(s, pos, depth, endPos) ==
            var c := Parse(s, pos).close; if depth == 1 then c else EndTag(s, c.end, depth - 1, endPos)
    decreases |s| + 2 - pos
  {
    var t, c := FindTag(s, pos, |s|), Parse(s, pos).close;
    FirstTag(s, pos, endPos);
    if t.kind == SectionEnd {
      EndTagFirst(s, pos, depth, endPos, t);
    } else {
      EndTagUnfold(s, pos, depth, endPos, t);
      var next := NextPos(s, t);
      EndTagCloses(s, next, depth, endPos);
      if OpensSection(t) {
        EndTagCloses(s, t.end, depth + 1, endPos);
        assert EndTag(s, t.end, depth + 1, endPos) == EndTag(s, next, depth, endPos);
      }
    }
  }

  lemma EndTagFirst(s: string, pos: nat, depth: nat, endPos: nat, t: Tag)
    requires Boundary(s, pos) && depth > 0 && t == FindTag(s, pos, |s|) && t.kind == SectionEnd
    requires t.end <= endPos <= |s| || endPos == |s|
    ensures Boundary(s, t.end)
    ensures EndTag(s, pos, depth, endPos) == if depth == 1 then t else EndTag(s, t.end, depth - 1, endPos)
  {
    SameTag(s, pos, endPos);
    EndTagUnfold(s, pos, depth, endPos, t);
  }

  /** The stretch from pos to endPos is well formed: it parses up to a closing tag that starts at endPos, or
      to the end of the text. */
  ghost predicate Region(s: string, pos: nat, endPos: nat) {
    Boundary(s, pos) && Parse(s, pos).Parsed? && endPos == RegionEnd(s, Parse(s, pos).close)
  }

  /** The sections of the template are nested with matching keys, and it has no delimiter changes. */
  predicate WellFormed(template: string) {
    Parse(template, 0).Parsed? && Parse(template, 0).close.kind == Null
  }

  // ------------------------------------------------------------------ scanning and parsing

  /** Scanning a well-formed stretch yields its parse tree. */
  lemma {:induction false} ScanIsParse(s: string, pos: nat, endPos: nat)
    requires Region(s, pos, endPos) && endPos <= |s|
    ensures Scan(s, pos, endPos) == Parse(s, pos).nodes
    decreases |s| + 2 - pos, 1
  {
    var t := FindTag(s, pos, |s|);
    FoundTag(s, pos, |s|);
    FirstTag(s, pos, endPos);
    SameTag(s, pos, endPos);
    if t.kind != Null && t.kind != SectionEnd {
      SectionScan(s, pos, t, endPos);
      ScanIsParse(s, NextPos(s, t), endPos);
    }
  }

  lemma {:induction false} SectionScan(s: string, pos: nat, t: Tag, endPos: nat)
    requires Boundary(s, pos) && Continues(s, pos, t, endPos) && endPos <= |s|
    ensures TagNode(s, t, endPos) == NodeOf(s, t) && TagNext(s, t, endPos) == NextPos(s, t)
    decreases |s| + 2 - pos, 0
  {
    if OpensSection(t) {
      EndTagCloses(s, t.end, 1, endPos);
      ScanIsParse(s, t.end, BodyOf(s, t).close.start);
    }
  }

  lemma {:induction false} ParseSound(s: string, pos: nat)
    requires Boundary(s, pos) && Parse(s, pos).Parsed?
    ensures Sound(Parse(s, pos).nodes)
    decreases |s| + 2 - pos
  {
    var t := FindTag(s, pos, |s|);
    FoundTag(s, pos, |s|);
    if t.kind != Null && t.kind != SectionEnd {
      ParseUnfold(s, pos, t);
      ParseSound(s, NextPos(s, t));
      if OpensSection(t) {
        ParseSound(s, t.end);
      }
    }
  }

  /** The end tag of a scan with a limit is that of a scan without. */
  lemma {:induction false} EndTagUnlimited(s: string, pos: nat, depth: nat, endPos: nat)
    requires Boundary(s, pos) && depth > 0 && endPos <= |s| && EndTag(s, pos, depth, endPos).kind != Null
    ensures EndTag(s, pos, depth, |s|) == EndTag(s, pos, depth, endPos)
    decreases |s| + 2 - pos
  {
    var t := FindTag(s, pos, endPos);
    FoundTag(s, pos, endPos);
    EndTagUnfold(s, pos, depth, endPos, t);
    assert t.kind != Null ==> t == FindTag(s, pos, |s|);
    if t.kind != Null {
      EndTagUnfold(s, pos, depth, |s|, t);
    }
    if OpensSection(t) {
      EndTagUnlimited(s, t.end, depth + 1, endPos);
    } else if t.kind == SectionEnd && depth > 1 {
      EndTagUnlimited(s, t.end, depth - 1, endPos);
    } else if t.kind != Null && t.kind != SectionEnd {
      EndTagUnlimited(s, t.end, depth, endPos);
    }
  }

  /** From pos on, the text is closed by the tag c at endPos, or by no tag and the end of the text. */
  ghost predicate ClosedBy(s: string, pos: nat, endPos: nat, c: Tag)
    requires Boundary(s, pos)
  {
    if c.kind == Null then c == NO_TAG && endPos == |s|
    else endPos == c.start <= |s| && EndTag(s, pos, 1, |s|) == c
  }

  /** Where a scan with a limit finds no tag, the text is closed. */
  lemma ClosedHere(s: string, pos: nat, endPos: nat, c: Tag)
    requires Boundary(s, pos) && ClosedBy(s, pos, endPos, c) && FindTag(s, pos, endPos).kind == Null
    ensures FindTag(s, pos, |s|) == c
  {
    var t := FindTag(s, pos, |s|);
    FoundTag(s, pos, |s|);
    SameTag(s, pos, endPos);
    EndTagUnfold(s, pos, 1, |s|, t);
    if c.kind != Null && t.kind != Null && t.kind != SectionEnd {
      EndTagRange(s, t.end, if OpensSection(t) then 2 else 1, |s|);
    }
  }

  lemma LastParses(s: string, pos: nat, c: Tag)
    requires Boundary(s, pos) && c == FindTag(s, pos, |s|) && c.kind in {Null, SectionEnd}
    ensures Parse(s, pos).Parsed? && Parse(s, pos).close == c
  {
    FoundTag(s, pos, |s|);
  }

  lemma SoundParts(n: Node, m: Node, rest: seq<Node>)
    requires Sound([n, m] + rest)
    ensures !m.Broken? && Sound(rest) && (m.Section? ==> Sound(m.body))
  {
    var all := [n, m] + rest;
    assert all[1] == m;
    forall i | 0 <= i < |rest|
      ensures !rest[i].Broken? && (rest[i].Section? ==> Sound(rest[i].body))
    {
      assert all[i + 2] == rest[i];
    }
  }

  lemma PlainParses(s: string, pos: nat, t: Tag)
    requires Boundary(s, pos) && t == FindTag(s, pos, |s|) && t.kind in {Value, Comment, Partial} && Boundary(s, t.end)
    requires Parse(s, t.end).Parsed?
    ensures Parse(s, pos).Parsed? && Parse(s, pos).close == Parse(s, t.end).close
  {
    FoundTag(s, pos, |s|);
  }

  lemma SectionParses(s: string, pos: nat, t: Tag, e: Tag)
    requires Boundary(s, pos) && t == FindTag(s, pos, |s|) && OpensSection(t)
    requires Boundary(s, t.end) && 0 < t.end <= |s| + 1
    requires Parse(s, t.end).Parsed? && Parse(s, t.end).close == e && e.kind != Null && e.key == t.key
    requires Boundary(s, e.end) && Parse(s, e.end).Parsed?
    ensures Parse(s, pos).Parsed? && Parse(s, pos).close == Parse(s, e.end).close
  {
    SectionParsed(s, t, Literal(Mid(s, pos, t.start)), t.kind == InvertedSectionStart, e);
    ParseOpens(s, pos, t);
  }

  lemma ParseOpens(s: string, pos: nat, t: Tag)
    requires Boundary(s, pos) && t == FindTag(s, pos, |s|) && OpensSection(t)
    ensures Boundary(s, t.end) && 0 < t.end <= |s| + 1
    ensures Parse(s, pos) == ParseSection(s, t, Literal(Mid(s, pos, t.start)), t.kind == InvertedSectionStart)
  {
    FoundTag(s, pos, |s|);
  }

  lemma SectionParsed(s: string, t: Tag, before: Node, inverted: bool, e: Tag)
    requires Boundary(s, t.end) && 0 < t.end <= |s| + 1
    requires Parse(s, t.end).Parsed? && Parse(s, t.end).close == e && e.kind != Null && e.key == t.key
    requires Boundary(s, e.end) && Parse(s, e.end).Parsed?
    ensures ParseSection(s, t, before, inverted).Parsed?
    ensures ParseSection(s, t, before, inverted).close == Parse(s, e.end).close
  {
  }

  ghost predicate SoundSection(s: string, endPos: nat, t: Tag) {
    && Boundary(s, t.end)
    && var e := EndTag(s, t.end, 1, endPos);
       && e.kind != Null && e.key == t.key && Boundary(s, e.end)
       && Sound(Scan(s, t.end, e.start)) && Sound(Scan(s, e.end, endPos))
  }

  lemma UnbrokenSection(s: string, endPos: nat, t: Tag)
    requires OpensSection(t) && 0 < t.end <= |s| + 1 && Boundary(s, t.end) && !TagNode(s, t, endPos).Broken?
    ensures var n, e := TagNode(s, t, endPos), EndTag(s, t.end, 1, endPos);
            && e.kind != Null && e.key == t.key && Boundary(s, e.end) && TagNext(s, t, endPos) == e.end
            && n.Section? && n.body == Scan(s, t.end, e.start)
  {
    EndTagRange(s, t.end, 1, endPos);
  }

  lemma SoundStep(s: string, pos: nat, endPos: nat, t: Tag)
    requires Boundary(s, pos) && t == FindTag(s, pos, endPos) && t.kind != Null && Sound(Scan(s, pos, endPos))
    ensures Follows(s, pos, endPos, t) && t.kind != SectionEnd
    ensures OpensSection(t) ==> SoundSection(s, endPos, t)
    ensures !OpensSection(t) ==> Sound(Scan(s, t.end, endPos))
  {
    FoundTag(s, pos, endPos);
    var n, next := TagNode(s, t, endPos), TagNext(s, t, endPos);
    SoundParts(Literal(Mid(s, pos, t.start)), n, if n.Broken? then [] else Scan(s, next, endPos));
    if OpensSection(t) {
      UnbrokenSection(s, endPos, t);
    }
  }

  /** A scan that has no Broken node has parsed the text. */
  lemma {:induction false} SoundScanParses(s: string, pos: nat, endPos: nat, c: Tag)
    requires Boundary(s, pos) && NoDelimiterTags(s, pos) && ClosedBy(s, pos, endPos, c) && Sound(Scan(s, pos, endPos))
    ensures Parse(s, pos).Parsed? && Parse(s, pos).close == c
    decreases |s| + 2 - pos, 1
  {
    var t := FindTag(s, pos, endPos);
    if t.kind == Null {
      ClosedHere(s, pos, endPos, c);
      LastParses(s, pos, c);
    } else {
      SoundStep(s, pos, endPos, t);
      LimitedScan(s, pos, endPos);
      if OpensSection(t) {
        SoundSectionParses(s, pos, endPos, c, t);
      } else {
        SoundPlainParses(s, pos, endPos, c, t);
      }
    }
  }

  lemma {:induction false} SoundPlainParses(s: string, pos: nat, endPos: nat, c: Tag, t: Tag)
    requires Boundary(s, pos) && ClosedBy(s, pos, endPos, c) && t == FindTag(s, pos, |s|) && pos < t.end <= |s| + 1
    requires t.kind in {Value, Comment, Partial} && Boundary(s, t.end) && NoDelimiterTags(s, t.end)
    requires Sound(Scan(s, t.end, endPos))
    ensures Parse(s, pos).Parsed? && Parse(s, pos).close == c
    decreases |s| + 2 - pos, 0
  {
    EndTagUnfold(s, pos, 1, |s|, t);
    SoundScanParses(s, t.end, endPos, c);
    PlainParses(s, pos, t);
  }

  lemma {:induction false} SoundSectionParses(s: string, pos: nat, endPos: nat, c: Tag, t: Tag)
    requires Boundary(s, pos) && NoDelimiterTags(s, pos) && ClosedBy(s, pos, endPos, c)
    requires OpensSection(t) && t == FindTag(s, pos, endPos) == FindTag(s, pos, |s|) && pos < t.end <= |s| + 1
    requires Boundary(s, t.end) && NoDelimiterTags(s, t.end) && SoundSection(s, endPos, t)
    ensures Parse(s, pos).Parsed? && Parse(s, pos).close == c
    decreases |s| + 2 - pos, 0
  {
    var e := EndTag(s, t.end, 1, endPos);
    EndTagRange(s, t.end, 1, endPos);
    EndTagUnlimited(s, t.end, 1, endPos);
    EndTagKeepsMarkers(s, t.end, 1, endPos);
    SoundScanParses(s, t.end, e.start, e);
    EndTagUnfold(s, pos, 1, |s|, t);
    EndTagCloses(s, t.end, 2, |s|);
    SoundScanParses(s, e.end, endPos, c);
    SectionParses(s, pos, t, e);
  }

  /** The scan of a template has no Broken node exactly when the template is well formed, and then it is the
      parse tree. */
  lemma ScanSoundIff(s: string)
    requires NoDelimiterTags(s, 0)
    ensures Sound(Scan(s, 0, |s|)) <==> WellFormed(s)
    ensures WellFormed(s) ==> Scan(s, 0, |s|) == Parse(s, 0).nodes
  {
    if WellFormed(s) {
      ScanIsParse(s, 0, |s|);
      ParseSound(s, 0);
    } else if Sound(Scan(s, 0, |s|)) {
      SoundScanParses(s, 0, |s|, NO_TAG);
    }
  }

  /** A well-formed template has no delimiter tags. */
  lemma {:induction false} NoDelimiters(s: string, pos: nat)
    requires Boundary(s, pos) && Parse(s, pos).Parsed? && NoneBehind(s, Parse(s, pos).close)
    ensures NoDelimiterTags(s, pos)
    decreases |s| + 2 - pos
  {
    var t := FindTag(s, pos, |s|);
    FoundTag(s, pos, |s|);
    if t.kind == Null || t.kind == SectionEnd {
      LastParses(s, pos, t);
    } else {
      ParseUnfold(s, pos, t);
      NoDelimiters(s, NextPos(s, t));
      if OpensSection(t) {
        NoDelimiters(s, t.end);
      }
    }
  }
}
