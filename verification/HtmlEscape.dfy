/**
  Escaping and unescaping of the four HTML special characters.
 */
module HtmlEscape {

  /** The replacement for a character; a character without one stands for itself. */
  function Entity(c: char): string {
    if c == '&' then "&amp;" else if c == '<' then "&lt;" else if c == '>' then "&gt;" else if c == '"' then "&quot;"
    else [c]
  }

  function EscapedChar(c: char, special: set<char>): string {
    if c in special then Entity(c) else [c]
  }

  /** Replace the characters of the set by their entities. */
  function Escaped(s: string, special: set<char>): string {
    if s == "" then "" else EscapedChar(s[0], special) + Escaped(s[1..], special)
  }

  const SPECIAL := {'&', '<', '>', '"'}

  predicate StartsWith(s: string, p: string) {
    |p| <= |s| && s[..|p|] == p
  }

  /** QString::replace: all occurrences, from the left, without looking at replacements again. */
  function ReplaceAll(s: string, p: string, r: string): string
    requires p != ""
  {
    if s == "" then ""
    else if StartsWith(s, p) then r + ReplaceAll(s[|p|..], p, r)
    else [s[0]] + ReplaceAll(s[1..], p, r)
  }

  function Unescaped(s: string): string {
    ReplaceAll(ReplaceAll(ReplaceAll(ReplaceAll(s, "&lt;", "<"), "&gt;", ">"), "&amp;", "&"), "&quot;", "\"")
  }

  /** escapeHtml, which edits its copy of the string from left to right. */
  method EscapeHtml(input: string) returns (escaped: string)
    ensures escaped == Escaped(input, SPECIAL)
  {
    escaped := input;
    var i := 0;
    ghost var k := 0;
    assert input[..0] == "";
    while i < |escaped|
      invariant 0 <= i <= |escaped| && 0 <= k <= |input|
      invariant escaped[..i] == Escaped(input[..k], SPECIAL) && escaped[i..] == input[k..]
      decreases |input| - k
    {
      var replacement := "";
      var ch := escaped[i];
      NextSuffix(escaped, i, input, k);
      if ch == '&' {
        replacement := "&amp;";
      } else if ch == '<' {
        replacement := "&lt;";
      } else if ch == '>' {
        replacement := "&gt;";
      } else if ch == '"' {
        replacement := "&quot;";
      }
      EscapedAppend(input[..k], ch, SPECIAL);
      assert input[..k + 1] == input[..k] + [ch];
      if replacement != "" {
        Spliced(escaped, i, replacement);
        escaped := escaped[..i] + replacement + escaped[i + 1..];
        i := i + |replacement|;
      } else {
        assert escaped[..i + 1] == escaped[..i] + [ch];
        i := i + 1;
      }
      k := k + 1;
    }
    assert input[..k] == input;
  }

  lemma NextSuffix(s: string, i: nat, t: string, k: nat)
    requires i < |s| && k <= |t| && s[i..] == t[k..]
    ensures k < |t| && s[i] == t[k] && s[i + 1..] == t[k + 1..]
  {
    assert |t[k..]| > 0;
    assert s[i] == s[i..][0] && t[k] == t[k..][0];
    assert s[i + 1..] == s[i..][1..] && t[k + 1..] == t[k..][1..];
  }

  lemma Spliced(s: string, i: nat, r: string)
    requires i < |s|
    ensures var t := s[..i] + r + s[i + 1..];
            t[..i + |r|] == s[..i] + r && t[i + |r|..] == s[i + 1..]
  {
  }

  lemma {:induction false} EscapedAppend(s: string, c: char, special: set<char>)
    ensures Escaped(s + [c], special) == Escaped(s, special) + EscapedChar(c, special)
  {
    if s == "" {
      EscapedOne(c, special);
      assert s + [c] == [c];
    } else {
      EscapedAppend(s[1..], c, special);
      EscapedFirst(s, special);
      EscapedFirst(s + [c], special);
      assert (s + [c])[1..] == s[1..] + [c];
      Associates(EscapedChar(s[0], special), Escaped(s[1..], special), EscapedChar(c, special));
    }
  }

  lemma EscapedOne(c: char, special: set<char>)
    ensures Escaped([c], special) == EscapedChar(c, special)
  {
    assert [c][1..] == "";
  }

  lemma EscapedFirst(s: string, special: set<char>)
    requires s != ""
    ensures Escaped(s, special) == EscapedChar(s[0], special) + Escaped(s[1..], special)
  {
  }

  lemma Associates(a: string, b: string, c: string)
    ensures a + (b + c) == (a + b) + c
  {
  }

  /** What each character becomes. */
  lemma EscapedCharacters(s: string, c: char)
    ensures Escaped("", SPECIAL) == ""
    ensures Escaped(s + "&", SPECIAL) == Escaped(s, SPECIAL) + "&amp;"
    ensures Escaped(s + "<", SPECIAL) == Escaped(s, SPECIAL) + "&lt;"
    ensures Escaped(s + ">", SPECIAL) == Escaped(s, SPECIAL) + "&gt;"
    ensures Escaped(s + "\"", SPECIAL) == Escaped(s, SPECIAL) + "&quot;"
    ensures c !in {'&', '<', '>', '"'} ==> Escaped(s + [c], SPECIAL) == Escaped(s, SPECIAL) + [c]
  {
    EscapedAppend(s, '&', SPECIAL);
    EscapedAppend(s, '<', SPECIAL);
    EscapedAppend(s, '>', SPECIAL);
    EscapedAppend(s, '"', SPECIAL);
    EscapedAppend(s, c, SPECIAL);
  }

  /** unescapeHtml */
  method UnescapeHtml(escaped: string) returns (unescaped: string)
    ensures unescaped == Unescaped(escaped)
  {
    unescaped := escaped;
    unescaped := ReplaceAll(unescaped, "&lt;", "<");
    unescaped := ReplaceAll(unescaped, "&gt;", ">");
    unescaped := ReplaceAll(unescaped, "&amp;", "&");
    unescaped := ReplaceAll(unescaped, "&quot;", "\"");
  }

  /** Escaped text is free of markup characters. */
  lemma {:induction false} EscapedHasNoMarkup(s: string)
    ensures forall i :: 0 <= i < |Escaped(s, SPECIAL)| ==> Escaped(s, SPECIAL)[i] !in {'<', '>', '"'}
  {
    if s != "" {
      EscapedHasNoMarkup(s[1..]);
    }
  }

  // ------------------------------------------------------------------ replacing entities

  lemma ReplaceMatch(p: string, s: string, r: string)
    requires p != ""
    ensures ReplaceAll(p + s, p, r) == r + ReplaceAll(s, p, r)
  {
    assert (p + s)[..|p|] == p && (p + s)[|p|..] == s;
  }

  /** Text without an ampersand is passed over. */
  lemma {:induction false} ReplaceSkips(w: string, s: string, p: string, r: string)
    requires p != "" && p[0] == '&' && forall k :: 0 <= k < |w| ==> w[k] != '&'
    ensures ReplaceAll(w + s, p, r) == w + ReplaceAll(s, p, r)
  {
    if w == "" {
      assert w + s == s;
    } else {
      ReplaceSkips(w[1..], s, p, r);
      assert (w + s)[1..] == w[1..] + s;
      assert !StartsWith(w + s, p) by {
        assert (w + s)[0] == w[0];
      }
      assert w == [w[0]] + w[1..];
    }
  }

  /** An entity is passed over by the replacement of another one. */
  lemma ReplaceSkipsEntity(w: string, s: string, p: string, r: string)
    requires |p| > 1 && p[0] == '&' && |w| > 1 && w[0] == '&' && w[1] != p[1]
             && forall k :: 1 <= k < |w| ==> w[k] != '&'
    ensures ReplaceAll(w + s, p, r) == w + ReplaceAll(s, p, r)
  {
    ReplaceSkips(w[1..], s, p, r);
    assert (w + s)[1..] == w[1..] + s;
    assert !StartsWith(w + s, p) by {
      assert (w + s)[1] == w[1];
    }
    assert w == [w[0]] + w[1..];
  }

  /** Replacing the entity of c undoes the escaping of c, as long as ampersands are escaped. */
  lemma {:induction false} ReplaceUndoes(s: string, special: set<char>, c: char)
    requires special <= SPECIAL && '&' in special && c in special
    ensures ReplaceAll(Escaped(s, special), Entity(c), [c]) == Escaped(s, special - {c})
  {
    if s != "" {
      ReplaceUndoes(s[1..], special, c);
      var rest := Escaped(s[1..], special);
      if s[0] == c {
        ReplaceMatch(Entity(c), rest, [c]);
      } else if s[0] in special {
        ReplaceSkipsEntity(Entity(s[0]), rest, Entity(c), [c]);
      } else {
        ReplaceSkips([s[0]], rest, Entity(c), [c]);
      }
    }
  }

  /** Escaping quotes does not change whether a text begins with w, for w without quotes and ampersands. */
  lemma {:induction false} QuotesKeepPrefix(s: string, w: string)
    requires forall k :: 0 <= k < |w| ==> w[k] != '&' && w[k] != '"'
    ensures StartsWith(Escaped(s, {'"'}), w) <==> StartsWith(s, w)
  {
    if w != "" && s != "" {
      var e := Escaped(s, {'"'});
      if s[0] == '"' {
        assert e[0] == '&' && s[0] != w[0];
      } else {
        QuotesKeepPrefix(s[1..], w[1..]);
        assert e[0] == s[0] && e[1..] == Escaped(s[1..], {'"'});
        Prefixes(e, w);
        Prefixes(s, w);
      }
    }
  }

  lemma Prefixes(s: string, w: string)
    requires s != "" && w != ""
    ensures StartsWith(s, w) <==> s[0] == w[0] && StartsWith(s[1..], w[1..])
  {
    if |w| <= |s| {
      assert s[..|w|] == [s[0]] + s[1..][..|w| - 1];
      assert w == [w[0]] + w[1..];
    }
  }

  /** Once only the quotes are escaped, replacing &quot; cannot tell an escaped quote from a literal &quot;. */
  lemma {:induction false} ReplaceQuotes(s: string)
    ensures ReplaceAll(Escaped(s, {'"'}), "&quot;", "\"") == ReplaceAll(s, "&quot;", "\"")
  {
    if s != "" {
      var e := Escaped(s, {'"'});
      if s[0] == '"' {
        ReplaceQuotes(s[1..]);
        ReplaceMatch("&quot;", Escaped(s[1..], {'"'}), "\"");
      } else if StartsWith(s, "&quot;") {
        ReplaceQuotes(s[6..]);
        LiteralQuote(s);
        ReplaceMatch("&quot;", Escaped(s[6..], {'"'}), "\"");
      } else {
        ReplaceQuotes(s[1..]);
        assert e[0] == s[0] && e[1..] == Escaped(s[1..], {'"'});
        QuotesKeepPrefix(s[1..], "quot;");
        Prefixes(s, "&quot;");
        Prefixes(e, "&quot;");
        assert "&quot;"[1..] == "quot;";
      }
    }
  }

  lemma LiteralQuote(s: string)
    requires StartsWith(s, "&quot;")
    ensures Escaped(s, {'"'}) == "&quot;" + Escaped(s[6..], {'"'})
  {
    PlainPrefix(s, "&quot;");
  }

  lemma {:induction false} PlainPrefix(s: string, w: string)
    requires StartsWith(s, w) && forall k :: 0 <= k < |w| ==> w[k] != '"'
    ensures Escaped(s, {'"'}) == w + Escaped(s[|w|..], {'"'})
  {
    if w == "" {
      assert s[|w|..] == s;
    } else {
      Prefixes(s, w);
      PlainPrefix(s[1..], w[1..]);
      EscapedFirst(s, {'"'});
      assert s[1..][|w| - 1..] == s[|w|..];
      assert w == [w[0]] + w[1..];
      Associates([w[0]], w[1..], Escaped(s[|w|..], {'"'}));
    }
  }

  // ------------------------------------------------------------------ the round trip

  /** Unescaping an escaped text gives the text with each literal &quot; turned into a quote. */
  lemma EscapeThenUnescape(s: string)
    ensures Unescaped(Escaped(s, SPECIAL)) == ReplaceAll(s, "&quot;", "\"")
  {
    ReplaceUndoes(s, SPECIAL, '<');
    assert SPECIAL - {'<'} == {'&', '>', '"'};
    ReplaceUndoes(s, {'&', '>', '"'}, '>');
    assert {'&', '>', '"'} - {'>'} == {'&', '"'};
    ReplaceUndoes(s, {'&', '"'}, '&');
    assert {'&', '"'} - {'&'} == {'"'};
    ReplaceQuotes(s);
  }

  predicate Contains(s: string, p: string) {
    exists i :: 0 <= i <= |s| && StartsWith(s[i..], p)
  }

  lemma {:induction false} ReplaceNothing(s: string, p: string, r: string)
    requires p != "" && !Contains(s, p)
    ensures ReplaceAll(s, p, r) == s
  {
    if s != "" {
      assert s[0..] == s;
      forall i | 0 <= i <= |s[1..]|
        ensures !StartsWith(s[1..][i..], p)
      {
        assert s[1..][i..] == s[i + 1..];
      }
      ReplaceNothing(s[1..], p, r);
    }
  }

  lemma {:induction false} ReplaceShortens(s: string, p: string, r: string)
    requires |r| < |p|
    ensures |ReplaceAll(s, p, r)| <= |s|
    ensures Contains(s, p) ==> |ReplaceAll(s, p, r)| < |s|
  {
    if s != "" {
      if StartsWith(s, p) {
        ReplaceShortens(s[|p|..], p, r);
      } else {
        ReplaceShortens(s[1..], p, r);
        if Contains(s, p) {
          var i :| 0 <= i <= |s| && StartsWith(s[i..], p);
          assert i > 0 by {
            assert s[0..] == s;
          }
          assert s[1..][i - 1..] == s[i..];
        }
      }
    }
  }

  /** The round trip is exact for the texts that do not contain &quot;, and for no others. */
  lemma RoundTripIff(s: string)
    ensures Unescaped(Escaped(s, SPECIAL)) == s <==> !Contains(s, "&quot;")
  {
    EscapeThenUnescape(s);
    if Contains(s, "&quot;") {
      ReplaceShortens(s, "&quot;", "\"");
    } else {
      ReplaceNothing(s, "&quot;", "\"");
    }
  }
}
