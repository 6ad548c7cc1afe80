/**
  The chunked text search (ground/gcs/src/libs/utils/filesearch.cpp), case sensitive and not limited to
  whole words, against a search that looks at every position of the whole file.
 */
module FileSearch {

  newtype Byte = x: int | 0 <= x < 256

  const NEWLINE: Byte := 10

  /** A reported match: the line number and the column. */
  datatype Match = Match(lineNr: nat, column: int)

  predicate MatchesAt(s: seq<Byte>, term: seq<Byte>, p: nat) {
    p + |term| <= |s| && forall k :: 0 <= k < |term| ==> s[p + k] == term[k]
  }

  /** The number of line breaks before position p. */
  function LineBreaks(s: seq<Byte>, p: nat): (n: nat)
    requires p <= |s|
  {
    if p == 0 then 0 else LineBreaks(s, p - 1) + if s[p - 1] == NEWLINE then 1 else 0
  }

  /** The start of the line that holds position p. */
  function LineStart(s: seq<Byte>, p: nat): (i: nat)
    requires p <= |s|
    ensures i <= p
  {
    if p == 0 || s[p - 1] == NEWLINE then p else LineStart(s, p - 1)
  }

  lemma {:induction false} LineStartIs(s: seq<Byte>, p: nat)
    requires p <= |s|
    ensures LineStart(s, p) > 0 ==> s[LineStart(s, p) - 1] == NEWLINE
    ensures NEWLINE !in s[LineStart(s, p)..p]
  {
    if p > 0 && s[p - 1] != NEWLINE {
      LineStartIs(s, p - 1);
      assert s[LineStart(s, p)..p] == s[LineStart(s, p)..p - 1] + [s[p - 1]];
    }
  }

  /** The start of the chunk in which position p is tested: the chunks start one stride apart. */
  function ChunkStart(p: nat, stride: nat): (c: nat)
    requires stride > 0
    ensures c <= p < c + stride
  {
    if p < stride then 0 else stride + ChunkStart(p - stride, stride)
  }

  lemma {:induction false} SameChunk(start: nat, p: nat, stride: nat)
    requires stride > 0 && ChunkStart(start, stride) == start && p < stride
    ensures ChunkStart(start + p, stride) == start
  {
    if start >= stride {
      SameChunk(start - stride, p, stride);
    }
  }

  lemma {:induction false} NextChunk(start: nat, stride: nat)
    requires stride > 0 && ChunkStart(start, stride) == start
    ensures ChunkStart(start + stride, stride) == start + stride
  {
  }

  function Max(a: int, b: int): int {
    if a >= b then a else b
  }

  /** What is reported for a match at p: columns count from the start of the line, or from the start of
      the chunk when the line began in an earlier one. */
  function Report(s: seq<Byte>, p: nat, stride: nat): Match
    requires p <= |s| && stride > 0
  {
    Match(1 + LineBreaks(s, p), p - Max(LineStart(s, p), ChunkStart(p, stride)))
  }

  /** The reports of the matches that start before position p, in order. */
  function Matches(s: seq<Byte>, term: seq<Byte>, p: nat, stride: nat): seq<Match>
    requires p <= |s| && stride > 0
  {
    if p == 0 then []
    else
      Matches(s, term, p - 1, stride)
      + if s[p - 1] != NEWLINE && MatchesAt(s, term, p - 1) then [Report(s, p - 1, stride)] else []
  }

  /** The comparison of the program: first and last byte, then the bytes between them. */
  method CompareRegion(chunk: seq<Byte>, regionPtr: nat, sc: seq<Byte>) returns (equal: bool)
    requires |sc| > 0 && regionPtr + |sc| <= |chunk|
    ensures equal <==> MatchesAt(chunk, sc, regionPtr)
  {
    var scMaxIndex := |sc| - 1;
    var regionEnd := regionPtr + scMaxIndex;
    assert MatchesAt(chunk, sc, regionPtr) ==>
           chunk[regionPtr + 0] == sc[0] && chunk[regionPtr + scMaxIndex] == sc[scMaxIndex];
    if chunk[regionPtr] != sc[0] || chunk[regionEnd] != sc[scMaxIndex] {
      return false;
    }
    equal := true;
    var regionIndex := 1;
    var regionCursor := regionPtr + 1;
    while regionCursor < regionEnd
      invariant regionCursor == regionPtr + regionIndex && regionIndex >= 1
      invariant equal <==> forall k :: 0 <= k < regionIndex && k < scMaxIndex ==> chunk[regionPtr + k] == sc[k]
    {
      if equal && chunk[regionCursor] != sc[regionIndex] {
        equal := false;
      }
      regionCursor, regionIndex := regionCursor + 1, regionIndex + 1;
    }
    assert regionIndex >= scMaxIndex;
  }

  predicate IsChunk(chunk: seq<Byte>, content: seq<Byte>, start: nat) {
    start + |chunk| <= |content| && chunk == content[start..start + |chunk|]
  }

  /** Test all starts of one chunk, which was read at position start of the file. */
  method SearchChunk(chunk: seq<Byte>, sc: seq<Byte>, lineNr0: nat, results0: seq<Match>,
                     ghost content: seq<Byte>, ghost start: nat, ghost stride: nat)
    returns (lineNr: nat, results: seq<Match>)
    requires |sc| > 0 && stride > 0 && ChunkStart(start, stride) == start && |chunk| < stride + |sc|
    requires IsChunk(chunk, content, start)
    requires lineNr0 == 1 + LineBreaks(content, start) && results0 == Matches(content, sc, start, stride)
    ensures var tested := if |chunk| < |sc| then 0 else |chunk| - |sc| + 1;
            && start + tested <= |content|
            && lineNr == 1 + LineBreaks(content, start + tested)
            && results == Matches(content, sc, start + tested, stride)
  {
    lineNr, results := lineNr0, results0;
    var scMaxIndex := |sc| - 1;
    var startOfLastLine := 0;
    var regionPtr := 0;
    while regionPtr < |chunk| - scMaxIndex
      invariant 0 <= regionPtr && (|chunk| >= |sc| ==> regionPtr <= |chunk| - scMaxIndex)
                && (|chunk| < |sc| ==> regionPtr == 0)
      invariant start + regionPtr <= |content| && startOfLastLine <= regionPtr
      invariant start + startOfLastLine == Max(LineStart(content, start + regionPtr), start)
      invariant lineNr == 1 + LineBreaks(content, start + regionPtr)
      invariant results == Matches(content, sc, start + regionPtr, stride)
    {
      SameChunk(start, regionPtr, stride);
      lineNr, startOfLastLine, results :=
        TestStart(chunk, sc, regionPtr, lineNr, startOfLastLine, results, content, start, stride);
      regionPtr := regionPtr + 1;
    }
  }

  /** The test of one start: a line break is counted, and is not a start. */
  method TestStart(chunk: seq<Byte>, sc: seq<Byte>, regionPtr: nat, lineNr0: nat, startOfLastLine0: nat,
                   results0: seq<Match>, ghost content: seq<Byte>, ghost start: nat, ghost stride: nat)
    returns (lineNr: nat, startOfLastLine: nat, results: seq<Match>)
    requires |sc| > 0 && regionPtr + |sc| <= |chunk| && IsChunk(chunk, content, start) && startOfLastLine0 <= regionPtr
    requires stride > 0 && ChunkStart(start + regionPtr, stride) == start
    requires start + startOfLastLine0 == Max(LineStart(content, start + regionPtr), start)
    requires lineNr0 == 1 + LineBreaks(content, start + regionPtr)
    requires results0 == Matches(content, sc, start + regionPtr, stride)
    ensures startOfLastLine <= regionPtr + 1
    ensures start + startOfLastLine == Max(LineStart(content, start + regionPtr + 1), start)
    ensures lineNr == 1 + LineBreaks(content, start + regionPtr + 1)
    ensures results == Matches(content, sc, start + regionPtr + 1, stride)
  {
    lineNr, startOfLastLine, results := lineNr0, startOfLastLine0, results0;
    assert chunk[regionPtr] == content[start + regionPtr];
    SameRegion(chunk, content, start, regionPtr, sc);
    OneStart(content, sc, start, start + regionPtr, start + startOfLastLine, stride);
    if chunk[regionPtr] == NEWLINE {
      startOfLastLine := regionPtr + 1;
      lineNr := lineNr + 1;
    } else {
      var equal := CompareRegion(chunk, regionPtr, sc);
      if equal {
        results := results + [Match(lineNr, regionPtr - startOfLastLine)];
      }
    }
  }

  /** What testing the start position p adds. */
  lemma OneStart(s: seq<Byte>, term: seq<Byte>, start: nat, p: nat, line: nat, stride: nat)
    requires start <= p < |s| && stride > 0 && ChunkStart(p, stride) == start && line == Max(LineStart(s, p), start)
    ensures LineBreaks(s, p + 1) == LineBreaks(s, p) + if s[p] == NEWLINE then 1 else 0
    ensures Max(LineStart(s, p + 1), start) == if s[p] == NEWLINE then p + 1 else line
    ensures Matches(s, term, p + 1, stride) ==
            Matches(s, term, p, stride)
            + if s[p] != NEWLINE && MatchesAt(s, term, p) then [Match(1 + LineBreaks(s, p), p - line)] else []
  {
  }

  lemma SameRegion(chunk: seq<Byte>, content: seq<Byte>, start: nat, p: nat, sc: seq<Byte>)
    requires IsChunk(chunk, content, start) && p + |sc| <= |chunk|
    ensures MatchesAt(chunk, sc, p) <==> MatchesAt(content, sc, start + p)
  {
    if MatchesAt(chunk, sc, p) {
      forall k | 0 <= k < |sc|
        ensures content[start + p + k] == sc[k]
      {
        assert chunk[p + k] == sc[k] && chunk[p + k] == content[start + (p + k)];
      }
    }
    if MatchesAt(content, sc, start + p) {
      forall k | 0 <= k < |sc|
        ensures chunk[p + k] == sc[k]
      {
        assert content[start + p + k] == sc[k] && chunk[p + k] == content[start + (p + k)];
      }
    }
  }

  /** A chunk holds at least the term, and about a hundred thousand bytes. */
  function ChunkSize(term: seq<Byte>): nat {
    if |term| > 100000 then |term| else 100000
  }

  /** Read the chunk at pos and search it. */
  method SearchFrom(content: seq<Byte>, term: seq<Byte>, pos: nat, chunkSize: nat, lineNr0: nat, results0: seq<Match>)
    returns (end: nat, lineNr: nat, results: seq<Match>)
    requires 0 < |term| <= chunkSize && pos < |content|
    requires ChunkStart(pos, chunkSize - |term| + 1) == pos
    requires lineNr0 == 1 + LineBreaks(content, pos) && results0 == Matches(content, term, pos, chunkSize - |term| + 1)
    ensures end == if pos + chunkSize <= |content| then pos + chunkSize else |content|
    ensures var tested := if end - pos < |term| then pos else end - |term| + 1;
            && lineNr == 1 + LineBreaks(content, tested)
            && results == Matches(content, term, tested, chunkSize - |term| + 1)
  {
    end := if pos + chunkSize <= |content| then pos + chunkSize else |content|;
    lineNr, results := SearchChunk(content[pos..end], term, lineNr0, results0, content, pos, chunkSize - |term| + 1);
  }

  /** The loop over the chunks of one file.  Every start position is tested exactly once. */
  method SearchFile(content: seq<Byte>, term: seq<Byte>) returns (results: seq<Match>)
    requires |term| > 0
    ensures results == Matches(content, term, |content|, ChunkSize(term) - |term| + 1)
  {
    var chunkSize := ChunkSize(term);
    ghost var stride: nat := chunkSize - |term| + 1;
    var lineNr, pos, firstChunk := 1, 0, true;
    results := [];
    ghost var tested: nat := 0;
    while pos < |content|
      invariant 0 <= pos <= |content| && tested <= |content|
      invariant firstChunk ==> pos == 0 && tested == 0
      invariant !firstChunk && pos < |content| ==> pos - |term| + 1 == tested
      invariant pos < |content| ==> ChunkStart(tested, stride) == tested
      invariant pos == |content| ==> tested + |term| > |content|
      invariant lineNr == 1 + LineBreaks(content, tested) && results == Matches(content, term, tested, stride)
      decreases |content| - pos
    {
      if !firstChunk {
        pos := pos - |term| + 1;
      }
      assert tested == pos;
      var end;
      end, lineNr, results := SearchFrom(content, term, pos, chunkSize, lineNr, results);
      tested := if end - pos < |term| then tested else end - |term| + 1;
      if end < |content| {
        NextChunk(pos, stride);
      }
      pos := end;
      firstChunk := false;
    }
    LateStarts(content, term, tested, |content|, stride);
  }

  /** No match starts so late that the term does not fit. */
  lemma {:induction false} LateStarts(s: seq<Byte>, term: seq<Byte>, p: nat, q: nat, stride: nat)
    requires p <= q <= |s| && stride > 0 && |term| > 0
    requires p + |term| > |s|
    ensures Matches(s, term, q, stride) == Matches(s, term, p, stride)
  {
    if p < q {
      LateStarts(s, term, p, q - 1, stride);
    }
  }

  // ------------------------------------------------------------------ what is found

  /** Every match position is reported exactly once, in order, with the right line number, unless the term
      starts with a line break: then nothing is found. */
  lemma {:induction false} MatchesAre(s: seq<Byte>, term: seq<Byte>, p: nat, stride: nat)
    requires p <= |s| && stride > 0 && |term| > 0
    ensures term[0] != NEWLINE ==>
              |Matches(s, term, p, stride)| == |Starts(s, term, p)|
              && forall k :: 0 <= k < |Starts(s, term, p)| ==>
                Matches(s, term, p, stride)[k] == Report(s, Starts(s, term, p)[k], stride)
    ensures term[0] == NEWLINE ==> Matches(s, term, p, stride) == []
  {
    if term[0] == NEWLINE {
      NothingFound(s, term, p, stride);
    } else {
      StartsReported(s, term, p, stride);
    }
  }

  lemma {:induction false} NothingFound(s: seq<Byte>, term: seq<Byte>, p: nat, stride: nat)
    requires p <= |s| && stride > 0 && |term| > 0 && term[0] == NEWLINE
    ensures Matches(s, term, p, stride) == []
  {
    if p > 0 {
      NothingFound(s, term, p - 1, stride);
      NothingAt(s, term, p - 1);
    }
  }

  lemma NothingAt(s: seq<Byte>, term: seq<Byte>, p: nat)
    requires p < |s| && |term| > 0 && term[0] == NEWLINE
    ensures !(s[p] != NEWLINE && MatchesAt(s, term, p))
  {
    FirstByte(s, term, p);
  }

  lemma FirstByte(s: seq<Byte>, term: seq<Byte>, p: nat)
    requires p < |s| && |term| > 0
    ensures MatchesAt(s, term, p) ==> s[p] == term[0]
  {
    assert MatchesAt(s, term, p) ==> s[p + 0] == term[0];
  }

  lemma {:induction false} StartsReported(s: seq<Byte>, term: seq<Byte>, p: nat, stride: nat)
    requires p <= |s| && stride > 0 && |term| > 0 && term[0] != NEWLINE
    ensures |Matches(s, term, p, stride)| == |Starts(s, term, p)|
    ensures forall k :: 0 <= k < |Starts(s, term, p)| ==>
      Starts(s, term, p)[k] < p && Matches(s, term, p, stride)[k] == Report(s, Starts(s, term, p)[k], stride)
  {
    if p > 0 {
      StartsReported(s, term, p - 1, stride);
      FirstByte(s, term, p - 1);
    }
  }

  /** The start positions before p at which the term occurs. */
  function Starts(s: seq<Byte>, term: seq<Byte>, p: nat): (r: seq<nat>)
    ensures forall k :: 0 <= k < |r| ==> r[k] < p
  {
    if p == 0 then [] else Starts(s, term, p - 1) + if MatchesAt(s, term, p - 1) then [p - 1] else []
  }

  /** They are all start positions, in increasing order. */
  lemma {:induction false} StartsAre(s: seq<Byte>, term: seq<Byte>, p: nat)
    ensures forall k, l :: 0 <= k < l < |Starts(s, term, p)| ==> Starts(s, term, p)[k] < Starts(s, term, p)[l]
    ensures forall i: nat :: i in Starts(s, term, p) <==> i < p && MatchesAt(s, term, i)
  {
    if p > 0 {
      StartsAre(s, term, p - 1);
    }
  }

  /** The line number of a report, by counting the bytes of value 10 before it. */
  lemma {:induction false} LinesCounted(s: seq<Byte>, p: nat)
    requires p <= |s|
    ensures LineBreaks(s, p) == |set k | 0 <= k < p && s[k] == 10|
  {
    if p > 0 {
      LinesCounted(s, p - 1);
      var before := set k | 0 <= k < p - 1 && s[k] == 10;
      assert (set k | 0 <= k < p && s[k] == 10) == if s[p - 1] == 10 then before + {p - 1} else before;
    }
  }

  /** The start of the chunk is the last multiple of the stride. */
  lemma {:induction false} ChunkStartIs(p: nat, stride: nat)
    requires stride > 0
    ensures ChunkStart(p, stride) == p - p % stride
  {
    if p >= stride {
      ChunkStartIs(p - stride, stride);
      RemainderRepeats(p - stride, stride);
    }
  }

  lemma SmallMultiple(a: int, stride: int, x: int)
    requires a * stride == x && -stride < x < stride
    ensures x == 0
  {
    if a > 0 {
      AtLeastOnce(a, stride);
    } else if a < 0 {
      AtLeastOnce(-a, stride);
    }
  }

  lemma AtLeastOnce(a: int, stride: int)
    requires a > 0 && stride >= 0
    ensures a * stride >= stride
  {
  }

  lemma RemainderRepeats(p: nat, stride: nat)
    requires stride > 0
    ensures (p + stride) % stride == p % stride
  {
    SmallMultiple((p + stride) / stride - p / stride - 1, stride, p % stride - (p + stride) % stride);
  }

  /** What is reported for a match at position p of a file, in numbers. */
  lemma ReportIs(s: seq<Byte>, term: seq<Byte>, p: nat)
    requires p <= |s| && |term| > 0
    ensures var r, stride := Report(s, p, ChunkSize(term) - |term| + 1), if |term| > 100000 then 1 else 100001 - |term|;
            && r.lineNr == 1 + |set k | 0 <= k < p && s[k] == 10|
            && 0 <= r.column <= p % stride && (p < stride ==> p - r.column == LineStart(s, p))
            && 10 !in s[p - r.column..p]
            && (r.column < p % stride && p > r.column ==> s[p - r.column - 1] == 10)
  {
    var stride := ChunkSize(term) - |term| + 1;
    LinesCounted(s, p);
    ChunkStartIs(p, stride);
    LineStartIs(s, p);
    var c := Report(s, p, stride).column;
    assert forall k :: p - c <= k < p ==> s[k] in s[LineStart(s, p)..p];
  }

  /** The reported column is the column in the line exactly when the line began in the same chunk. */
  lemma ColumnIff(s: seq<Byte>, p: nat, stride: nat)
    requires p <= |s| && stride > 0
    ensures Report(s, p, stride).column == p - LineStart(s, p) <==> LineStart(s, p) >= ChunkStart(p, stride)
    ensures 0 <= Report(s, p, stride).column <= p - LineStart(s, p)
    ensures NEWLINE !in s[LineStart(s, p)..p] && (LineStart(s, p) > 0 ==> s[LineStart(s, p) - 1] == NEWLINE)
  {
    LineStartIs(s, p);
  }
}
