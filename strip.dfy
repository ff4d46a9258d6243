/** The caption clean-up of scripts/strip.js: one chain of rewrites over the
    captions text. Reading CAPTIONS and writing CAPTIONS.txt are I/O and
    are not modelled. Each regular-expression pass is written out as a
    left-to-right scan with the same matching rules. */
module Strip {
  import opened Common

  /** `\w` of a JavaScript regular expression. */
  predicate IsWordChar(c: char)
  {
    'a' <= c <= 'z' || 'A' <= c <= 'Z' || '0' <= c <= '9' || c == '_'
  }

  /** The characters before which `$` matches in a multiline regular
      expression. */
  predicate IsLineTerminator(c: char)
  {
    c == '\n' || c == '\r' || c == '\U{2028}' || c == '\U{2029}'
  }

  /** The characters `String.prototype.trim` removes: the line terminators
      and the white space of ECMAScript. */
  predicate IsWhitespace(c: char)
  {
    IsLineTerminator(c) || c == '\t' || c == '\U{000B}' || c == '\U{000C}' || c == ' '
    || c == '\U{00A0}' || c == '\U{1680}' || '\U{2000}' <= c <= '\U{200A}'
    || c == '\U{202F}' || c == '\U{205F}' || c == '\U{3000}' || c == '\U{FEFF}'
  }

  predicate AllWhitespace(s: string)
  {
    forall i :: 0 <= i < |s| ==> IsWhitespace(s[i])
  }

  /** A concatenation is all white space exactly when both parts are. */
  lemma {:induction false} WhitespaceConcat(a: string, b: string)
    ensures AllWhitespace(a + b) <==> AllWhitespace(a) && AllWhitespace(b)
  {
    var r := a + b;
    assert forall i :: 0 <= i < |a| ==> r[i] == a[i];
    assert forall i :: 0 <= i < |b| ==> r[|a| + i] == b[i];
  }

  /** Both sides of a cut of white space are white space. */
  lemma {:induction false} WhitespaceCut(s: string, n: nat)
    requires n <= |s| && AllWhitespace(s)
    ensures AllWhitespace(s[..n]) && AllWhitespace(s[n..])
  {
    WhitespaceConcat(s[..n], s[n..]);
    assert s[..n] + s[n..] == s;
  }

  /** s with every c deleted. */
  function Without(s: string, c: char): (r: string)
    ensures forall i :: 0 <= i < |r| ==> r[i] != c
  {
    if s == [] then [] else (if s[0] == c then [] else [s[0]]) + Without(s[1..], c)
  }

  /** Deleting c distributes over concatenation. */
  lemma {:induction false} WithoutConcat(a: string, b: string, c: char)
    ensures Without(a + b, c) == Without(a, c) + Without(b, c)
  {
    if a != [] {
      assert (a + b)[0] == a[0] && (a + b)[1..] == a[1..] + b;
      WithoutConcat(a[1..], b, c);
    } else {
      assert a + b == b;
    }
  }

  /** A run of c alone leaves nothing once c is deleted. */
  lemma {:induction false} WithoutRun(s: string, c: char)
    requires forall i :: 0 <= i < |s| ==> s[i] == c
    ensures Without(s, c) == []
  {
    if s != [] {
      WithoutRun(s[1..], c);
    }
  }

  /** No `[!` occurs in s. */
  predicate NoMarkerOpen(s: string)
  {
    forall i :: 0 <= i < |s| - 1 ==> !(s[i] == '[' && s[i + 1] == '!')
  }

  /** No space ends a line: every space is followed by a character that is
      not a line terminator. */
  predicate NoTrailingSpace(s: string)
  {
    forall i :: 0 <= i < |s| ==> !SpaceEndsLine(s, i)
  }

  /** The space at index i of s ends a line. */
  predicate SpaceEndsLine(s: string, i: nat)
    requires i < |s|
  {
    s[i] == ' ' && (i + 1 == |s| || IsLineTerminator(s[i + 1]))
  }

  /** No three newlines in a row. */
  predicate NoTripleNewline(s: string)
  {
    forall i :: 0 <= i < |s| - 2 ==> !TripleAt(s, i)
  }

  /** Three newlines start at index i of s. */
  predicate TripleAt(s: string, i: nat)
    requires i + 2 < |s|
  {
    s[i] == '\n' && s[i + 1] == '\n' && s[i + 2] == '\n'
  }

  predicate IsWord(w: string)
  {
    w != [] && forall i :: 0 <= i < |w| ==> IsWordChar(w[i])
  }

  // ---------------------------------------------------------------------
  // Step 1: delete the markers
  // ---------------------------------------------------------------------

  /** The length of the longest run of word characters s starts with. */
  function WordRun(s: string): (n: nat)
    ensures n <= |s|
    ensures forall i :: 0 <= i < n ==> IsWordChar(s[i])
    ensures n < |s| ==> !IsWordChar(s[n])
  {
    if s != [] && IsWordChar(s[0]) then 1 + WordRun(s[1..]) else 0
  }

  /** The length of the `[!word]` marker s starts with, one following
      space included, if it starts with one. */
  function MarkerAt(s: string): (r: Option<nat>)
    ensures r.Some? ==> 4 <= r.value <= |s|
    ensures r.Some? ==> s[0] == '[' && s[1] == '!'
  {
    if |s| >= 2 && s[0] == '[' && s[1] == '!' then
      var k := WordRun(s[2..]);
      if k > 0 && 2 + k < |s| && s[2 + k] == ']' then
        Some(if 3 + k < |s| && s[3 + k] == ' ' then 4 + k else 3 + k)
      else None
    else None
  }

  /** A marker is recognised exactly at `[!`, a word and `]`; the match
      takes one space after it when there is one. */
  lemma {:induction false} MarkerOfWord(w: string, rest: string)
    requires IsWord(w)
    ensures MarkerAt("[!" + w + "]" + rest) == Some(|w| + 3 + (if rest != [] && rest[0] == ' ' then 1 else 0))
  {
    var s := "[!" + w + "]" + rest;
    assert s[2..] == w + ("]" + rest);
    WordRunOf(w, "]" + rest);
    assert s[2 + |w|] == ']';
    assert rest != [] ==> s[3 + |w|] == rest[0];
  }

  lemma {:induction false} WordRunOf(w: string, rest: string)
    requires forall i :: 0 <= i < |w| ==> IsWordChar(w[i])
    requires rest != [] && !IsWordChar(rest[0])
    ensures WordRun(w + rest) == |w|
  {
    if w != [] {
      assert (w + rest)[1..] == w[1..] + rest;
      WordRunOf(w[1..], rest);
    }
  }

  /** Only `[!` followed by a word and `]` is a marker. */
  lemma {:induction false} MarkerIsWord(s: string)
    requires MarkerAt(s).Some?
    ensures exists w: string :: IsWord(w) && |w| + 3 <= |s| && s[..|w| + 3] == "[!" + w + "]"
  {
    var k := WordRun(s[2..]);
    var w := s[2..2 + k];
    assert s[..|w| + 3] == "[!" + w + "]";
  }

  /** One left-to-right pass deleting every marker it meets. */
  function StripMarkers(s: string): (r: string)
    ensures |r| <= |s|
    ensures NoMarkerOpen(s) ==> r == s
    decreases |s|
  {
    if s == [] then []
    else
      match MarkerAt(s)
      case Some(n) => StripMarkers(s[n..])
      case None =>
        assert NoMarkerOpen(s) ==> NoMarkerOpen(s[1..]);
        [s[0]] + StripMarkers(s[1..])
  }

  /** A marker, and one space after it, is deleted; what follows is
      scanned on from there. */
  lemma {:induction false} MarkerDeleted(w: string, rest: string)
    requires IsWord(w)
    ensures StripMarkers("[!" + w + "]" + rest)
         == StripMarkers(if rest != [] && rest[0] == ' ' then rest[1..] else rest)
  {
    var s := "[!" + w + "]" + rest;
    MarkerOfWord(w, rest);
    assert s[|w| + 3..] == rest;
    if rest != [] && rest[0] == ' ' {
      assert s[|w| + 4..] == rest[1..];
    }
  }

  // ---------------------------------------------------------------------
  // Step 2: delete the spaces that end a line
  // ---------------------------------------------------------------------

  /** The length of the run of copies of c that s starts with. */
  function CharRun(s: string, c: char): (n: nat)
    ensures n <= |s|
    ensures forall i :: 0 <= i < n ==> s[i] == c
    ensures n < |s| ==> s[n] != c
  {
    if s != [] && s[0] == c then 1 + CharRun(s[1..], c) else 0
  }

  /** Delete every run of spaces that ends a line or the text. */
  function TrimLineEnds(s: string): (r: string)
    ensures |r| <= |s|
    ensures s != [] && s[0] != ' ' ==> r != [] && r[0] == s[0]
    decreases |s|
  {
    if s == [] then []
    else if s[0] == ' ' then
      var k := CharRun(s, ' ');
      if k == |s| || IsLineTerminator(s[k]) then TrimLineEnds(s[k..])
      else s[..k] + TrimLineEnds(s[k..])
    else [s[0]] + TrimLineEnds(s[1..])
  }

  /** Afterwards no line ends in a space. */
  lemma {:induction false} TrimLineEndsClean(s: string)
    ensures NoTrailingSpace(TrimLineEnds(s))
    decreases |s|
  {
    if s == [] {
    } else if s[0] == ' ' {
      var k := CharRun(s, ' ');
      var rest := TrimLineEnds(s[k..]);
      TrimLineEndsClean(s[k..]);
      if !(k == |s| || IsLineTerminator(s[k])) {
        var r := s[..k] + rest;
        forall i | 0 <= i < |r|
          ensures !SpaceEndsLine(r, i)
        {
          if i < k {
            if i + 1 == k {
              assert r[i + 1] == rest[0] == s[k];
            }
          } else {
            assert r[i] == rest[i - k] && !SpaceEndsLine(rest, i - k);
            if i + 1 < |r| {
              assert r[i + 1] == rest[i + 1 - k];
            }
          }
        }
      }
    } else {
      var rest := TrimLineEnds(s[1..]);
      TrimLineEndsClean(s[1..]);
      var r := [s[0]] + rest;
      forall i | 0 <= i < |r|
        ensures !SpaceEndsLine(r, i)
      {
        if i > 0 {
          assert r[i] == rest[i - 1] && !SpaceEndsLine(rest, i - 1);
          if i + 1 < |r| {
            assert r[i + 1] == rest[i];
          }
        }
      }
    }
  }

  /** Text in which no line ends in a space is left as it is. */
  lemma {:induction false} TrimLineEndsKeeps(s: string)
    requires NoTrailingSpace(s)
    ensures TrimLineEnds(s) == s
    decreases |s|
  {
    if s == [] {
    } else if s[0] == ' ' {
      var k := CharRun(s, ' ');
      assert k < |s| && !IsLineTerminator(s[k]) by {
        assert s[k - 1] == ' ' && !SpaceEndsLine(s, k - 1);
      }
      TrailingSpaceCut(s, k);
      calc {
        TrimLineEnds(s);
        s[..k] + TrimLineEnds(s[k..]);
        { TrimLineEndsKeeps(s[k..]); }
        s[..k] + s[k..];
        s;
      }
    } else {
      TrailingSpaceCut(s, 1);
      calc {
        TrimLineEnds(s);
        [s[0]] + TrimLineEnds(s[1..]);
        { TrimLineEndsKeeps(s[1..]); }
        [s[0]] + s[1..];
        s;
      }
    }
  }

  /** Text of white space alone stays white space. */
  lemma {:induction false} TrimLineEndsWhitespace(s: string)
    requires AllWhitespace(s)
    ensures AllWhitespace(TrimLineEnds(s))
    decreases |s|
  {
    if s == [] {
    } else if s[0] == ' ' {
      var k := CharRun(s, ' ');
      WhitespaceCut(s, k);
      TrimLineEndsWhitespace(s[k..]);
      WhitespaceConcat(s[..k], TrimLineEnds(s[k..]));
    } else {
      WhitespaceCut(s, 1);
      TrimLineEndsWhitespace(s[1..]);
      assert [s[0]] == s[..1];
      WhitespaceConcat(s[..1], TrimLineEnds(s[1..]));
    }
  }

  /** Only spaces are deleted: every other character stays, in order. */
  lemma {:induction false} TrimLineEndsOnlySpaces(s: string)
    ensures Without(TrimLineEnds(s), ' ') == Without(s, ' ')
    decreases |s|
  {
    if s == [] {
    } else if s[0] == ' ' {
      var k := CharRun(s, ' ');
      assert s == s[..k] + s[k..];
      WithoutConcat(s[..k], s[k..], ' ');
      WithoutRun(s[..k], ' ');
      TrimLineEndsOnlySpaces(s[k..]);
      WithoutConcat(s[..k], TrimLineEnds(s[k..]), ' ');
    } else {
      TrimLineEndsOnlySpaces(s[1..]);
      WithoutConcat([s[0]], TrimLineEnds(s[1..]), ' ');
    }
  }

  // ---------------------------------------------------------------------
  // Step 3: collapse runs of blank lines
  // ---------------------------------------------------------------------

  /** Replace every run of three or more newlines by exactly two. */
  function CollapseNewlines(s: string): (r: string)
    ensures s != [] && s[0] != '\n' ==> r != [] && r[0] == s[0]
    decreases |s|
  {
    if s == [] then []
    else if s[0] == '\n' then
      var k := CharRun(s, '\n');
      (if k >= 3 then "\n\n" else s[..k]) + CollapseNewlines(s[k..])
    else [s[0]] + CollapseNewlines(s[1..])
  }

  /** Afterwards no three newlines are in a row. */
  lemma {:induction false} CollapseNoTriple(s: string)
    ensures NoTripleNewline(CollapseNewlines(s))
    decreases |s|
  {
    if s == [] {
    } else if s[0] == '\n' {
      var k := CharRun(s, '\n');
      CollapseNoTriple(s[k..]);
      NoTripleAfterRun(if k >= 3 then "\n\n" else s[..k], CollapseNewlines(s[k..]));
    } else {
      var rest := CollapseNewlines(s[1..]);
      CollapseNoTriple(s[1..]);
      var r := [s[0]] + rest;
      forall i | 0 <= i < |r| - 2
        ensures !TripleAt(r, i)
      {
        if i > 0 {
          assert r[i] == rest[i - 1] && r[i + 1] == rest[i] && r[i + 2] == rest[i + 1];
          assert !TripleAt(rest, i - 1);
        }
      }
    }
  }

  /** Text without three newlines in a row is left as it is. */
  lemma {:induction false} CollapseKeeps(s: string)
    requires NoTripleNewline(s)
    ensures CollapseNewlines(s) == s
    decreases |s|
  {
    if s == [] {
    } else if s[0] == '\n' {
      var k := CharRun(s, '\n');
      assert 3 <= |s| ==> !TripleAt(s, 0);
      TripleCut(s, k);
      calc {
        CollapseNewlines(s);
        s[..k] + CollapseNewlines(s[k..]);
        { CollapseKeeps(s[k..]); }
        s[..k] + s[k..];
        s;
      }
    } else {
      TripleCut(s, 1);
      calc {
        CollapseNewlines(s);
        [s[0]] + CollapseNewlines(s[1..]);
        { CollapseKeeps(s[1..]); }
        [s[0]] + s[1..];
        s;
      }
    }
  }

  /** Collapsing newline runs creates no space at a line end. */
  lemma {:induction false} CollapseKeepsNoTrailingSpace(s: string)
    requires NoTrailingSpace(s)
    ensures NoTrailingSpace(CollapseNewlines(s))
    decreases |s|
  {
    if s == [] {
    } else if s[0] == '\n' {
      var k := CharRun(s, '\n');
      var t := s[k..];
      TrailingSpaceCut(s, k);
      CollapseKeepsNoTrailingSpace(t);
      var head := if k >= 3 then "\n\n" else s[..k];
      var rest := CollapseNewlines(t);
      var r := head + rest;
      forall i | 0 <= i < |r|
        ensures !SpaceEndsLine(r, i)
      {
        if i < |head| {
          assert r[i] == '\n';
        } else {
          assert r[i] == rest[i - |head|] && !SpaceEndsLine(rest, i - |head|);
          if i + 1 < |r| {
            assert r[i + 1] == rest[i + 1 - |head|];
          }
        }
      }
    } else {
      var t := s[1..];
      TrailingSpaceCut(s, 1);
      CollapseKeepsNoTrailingSpace(t);
      var rest := CollapseNewlines(t);
      var r := [s[0]] + rest;
      if s[0] == ' ' {
        assert !SpaceEndsLine(s, 0);
        assert |s| > 1 && t[0] == s[1] && !IsLineTerminator(s[1]);
        assert rest[0] == s[1] && r[1] == rest[0];
      }
      forall i | 0 <= i < |r|
        ensures !SpaceEndsLine(r, i)
      {
        if i > 0 {
          assert r[i] == rest[i - 1] && !SpaceEndsLine(rest, i - 1);
          if i + 1 < |r| {
            assert r[i + 1] == rest[i];
          }
        }
      }
    }
  }

  /** Text of white space alone stays white space. */
  lemma {:induction false} CollapseWhitespace(s: string)
    requires AllWhitespace(s)
    ensures AllWhitespace(CollapseNewlines(s))
    decreases |s|
  {
    if s == [] {
    } else if s[0] == '\n' {
      var k := CharRun(s, '\n');
      WhitespaceCut(s, k);
      CollapseWhitespace(s[k..]);
      var head := if k >= 3 then "\n\n" else s[..k];
      assert IsWhitespace('\n');
      WhitespaceConcat(head, CollapseNewlines(s[k..]));
    } else {
      WhitespaceCut(s, 1);
      CollapseWhitespace(s[1..]);
      assert [s[0]] == s[..1];
      WhitespaceConcat(s[..1], CollapseNewlines(s[1..]));
    }
  }

  /** Only newlines are deleted or written: every other character stays,
      in order. */
  lemma {:induction false} CollapseOnlyNewlines(s: string)
    ensures Without(CollapseNewlines(s), '\n') == Without(s, '\n')
    decreases |s|
  {
    if s == [] {
    } else if s[0] == '\n' {
      var k := CharRun(s, '\n');
      var head := if k >= 3 then "\n\n" else s[..k];
      assert s == s[..k] + s[k..];
      WithoutConcat(s[..k], s[k..], '\n');
      WithoutRun(s[..k], '\n');
      WithoutRun(head, '\n');
      CollapseOnlyNewlines(s[k..]);
      WithoutConcat(head, CollapseNewlines(s[k..]), '\n');
    } else {
      CollapseOnlyNewlines(s[1..]);
      WithoutConcat([s[0]], CollapseNewlines(s[1..]), '\n');
    }
  }

  /** At most two newlines followed by text that does not start with one
      hold no run of three. */
  lemma {:induction false} NoTripleAfterRun(head: string, rest: string)
    requires |head| <= 2 && NoTripleNewline(rest)
    requires rest != [] ==> rest[0] != '\n'
    requires forall i :: 0 <= i < |head| ==> head[i] == '\n'
    ensures NoTripleNewline(head + rest)
  {
    var r := head + rest;
    forall i | 0 <= i < |r| - 2
      ensures !TripleAt(r, i)
    {
      if i + 2 == |head| || i + 1 == |head| {
        assert r[|head|] == rest[0];
      } else if i >= |head| {
        assert r[i] == rest[i - |head|] && r[i + 1] == rest[i + 1 - |head|] && r[i + 2] == rest[i + 2 - |head|];
        assert !TripleAt(rest, i - |head|);
      }
    }
  }

  /** A run of three or more newlines becomes two. */
  lemma {:induction false} RunCollapsed(k: nat, rest: string)
    requires k >= 3
    requires rest != [] ==> rest[0] != '\n'
    ensures CollapseNewlines(seq(k, _ => '\n') + rest) == "\n\n" + CollapseNewlines(rest)
  {
    var s := seq(k, _ => '\n') + rest;
    RunOfNewlines(k, rest);
    assert s[k..] == rest;
  }

  lemma {:induction false} RunOfNewlines(k: nat, rest: string)
    requires rest != [] ==> rest[0] != '\n'
    ensures CharRun(seq(k, _ => '\n') + rest, '\n') == k
  {
    if k > 0 {
      assert (seq(k, _ => '\n') + rest)[1..] == seq(k - 1, _ => '\n') + rest;
      RunOfNewlines(k - 1, rest);
    }
  }

  // ---------------------------------------------------------------------
  // Step 4: trim and end with a newline
  // ---------------------------------------------------------------------

  /** Drop leading white space: the rest of s from its first other
      character. */
  function TrimStart(s: string): (r: string)
    ensures |r| <= |s| && r == s[|s| - |r|..]
    ensures r != [] ==> !IsWhitespace(r[0])
    ensures forall i :: 0 <= i < |s| - |r| ==> IsWhitespace(s[i])
  {
    if s != [] && IsWhitespace(s[0]) then
      var r := TrimStart(s[1..]);
      assert s[|s| - |r|..] == s[1..][|s| - 1 - |r|..];
      assert forall i :: 1 <= i < |s| ==> s[i] == s[1..][i - 1];
      r
    else s
  }

  /** Drop trailing white space: s up to its last other character. */
  function TrimEnd(s: string): (r: string)
    ensures |r| <= |s| && r == s[..|r|]
    ensures r != [] ==> !IsWhitespace(r[|r| - 1])
    ensures forall i :: |r| <= i < |s| ==> IsWhitespace(s[i])
  {
    if s != [] && IsWhitespace(s[|s| - 1]) then TrimEnd(s[..|s| - 1]) else s
  }

  /** `trim`: s without its leading and its trailing white space. */
  function Trim(s: string): (r: string)
    ensures |r| <= |s|
    ensures r != [] ==> !IsWhitespace(r[0]) && !IsWhitespace(r[|r| - 1])
    ensures AllWhitespace(s) ==> r == []
  {
    TrimEnd(TrimStart(s))
  }

  /** Text without white space at either end is left as it is. */
  lemma {:induction false} TrimClean(s: string)
    requires s != [] ==> !IsWhitespace(s[0]) && !IsWhitespace(s[|s| - 1])
    ensures Trim(s) == s
  {
  }

  /** Cutting text with no space ending a line leaves none in the part
      after the cut, nor in the part before it unless that ends in a
      space. */
  lemma {:induction false} TrailingSpaceCut(s: string, n: nat)
    requires n <= |s| && NoTrailingSpace(s)
    ensures NoTrailingSpace(s[n..])
    ensures n == 0 || s[n - 1] != ' ' ==> NoTrailingSpace(s[..n])
  {
    var t := s[n..];
    forall i | 0 <= i < |t|
      ensures !SpaceEndsLine(t, i)
    {
      assert t[i] == s[n + i] && !SpaceEndsLine(s, n + i);
      if i + 1 < |t| {
        assert t[i + 1] == s[n + i + 1];
      }
    }
    var p := s[..n];
    forall i | 0 <= i < |p| && (n == 0 || s[n - 1] != ' ')
      ensures !SpaceEndsLine(p, i)
    {
      assert !SpaceEndsLine(s, i);
    }
  }

  /** Both sides of a cut of text without three newlines in a row are
      without them too. */
  lemma {:induction false} TripleCut(s: string, n: nat)
    requires n <= |s| && NoTripleNewline(s)
    ensures NoTripleNewline(s[..n]) && NoTripleNewline(s[n..])
  {
    var t := s[n..];
    forall i | 0 <= i < |t| - 2
      ensures !TripleAt(t, i)
    {
      assert t[i] == s[n + i] && t[i + 1] == s[n + i + 1] && t[i + 2] == s[n + i + 2];
      assert !TripleAt(s, n + i);
    }
    var p := s[..n];
    forall i | 0 <= i < |p| - 2
      ensures !TripleAt(p, i)
    {
      assert !TripleAt(s, i);
    }
  }

  /** The line clean-up: delete markers, delete spaces ending lines and
      collapse newline runs. */
  function CleanLines(s: string): string
  {
    CollapseNewlines(TrimLineEnds(StripMarkers(s)))
  }

  /** The finish: trim, and end with one newline. */
  function Finish(c: string): (r: string)
    ensures |r| >= 1 && r[|r| - 1] == '\n'
  {
    Trim(c) + "\n"
  }

  /** The whole pipeline: clean the lines up, then finish. */
  function StripCaptions(s: string): (r: string)
    ensures |r| >= 1 && r[|r| - 1] == '\n'
  {
    Finish(CleanLines(s))
  }

  /** Adding a newline after text with no white space at either end
      keeps it free of trailing spaces and triple newlines. */
  lemma {:induction false} AppendNewlineClean(t: string)
    requires NoTrailingSpace(t) && NoTripleNewline(t)
    requires t != [] ==> !IsWhitespace(t[0]) && !IsWhitespace(t[|t| - 1])
    ensures var r := t + "\n";
      (|r| >= 2 ==> !IsWhitespace(r[0]) && !IsWhitespace(r[|r| - 2])) &&
      NoTrailingSpace(r) && NoTripleNewline(r)
  {
    var r := t + "\n";
    forall i | 0 <= i < |r|
      ensures !SpaceEndsLine(r, i)
    {
      if i < |t| {
        assert r[i] == t[i] && !SpaceEndsLine(t, i);
        if i + 1 < |t| {
          assert r[i + 1] == t[i + 1];
        }
      }
    }
    forall i | 0 <= i < |r| - 2
      ensures !TripleAt(r, i)
    {
      assert r[i] == t[i] && r[i + 1] == t[i + 1];
      if i + 2 < |t| {
        assert r[i + 2] == t[i + 2] && !TripleAt(t, i);
      }
    }
    if |t| >= 1 {
      assert r[0] == t[0] && r[|r| - 2] == t[|t| - 1];
    }
  }

  /** Trimming keeps the absence of trailing spaces and triple newlines. */
  lemma {:induction false} TrimKeepsClean(c: string)
    requires NoTrailingSpace(c) && NoTripleNewline(c)
    ensures NoTrailingSpace(Trim(c)) && NoTripleNewline(Trim(c))
  {
    var u := TrimStart(c);
    TrailingSpaceCut(c, |c| - |u|);
    TripleCut(c, |c| - |u|);
    var n := |TrimEnd(u)|;
    assert n == 0 || u[n - 1] != ' ';
    TrailingSpaceCut(u, n);
    TripleCut(u, n);
  }

  /** Trimming text without trailing spaces or triple newlines and adding
      a newline gives text with no white space at either end of the trimmed
      part that keeps both properties. */
  lemma {:induction false} FinishClean(c: string)
    requires NoTrailingSpace(c) && NoTripleNewline(c)
    ensures var r := Finish(c);
      (|r| >= 2 ==> !IsWhitespace(r[0]) && !IsWhitespace(r[|r| - 2])) &&
      NoTrailingSpace(r) && NoTripleNewline(r)
  {
    TrimKeepsClean(c);
    AppendNewlineClean(Trim(c));
  }

  /** The line clean-up leaves no space at a line end and no three
      newlines in a row. */
  lemma {:induction false} CleanLinesClean(s: string)
    ensures NoTrailingSpace(CleanLines(s)) && NoTripleNewline(CleanLines(s))
  {
    var m := StripMarkers(s);
    TrimLineEndsClean(m);
    var l := TrimLineEnds(m);
    CollapseNoTriple(l);
    CollapseKeepsNoTrailingSpace(l);
  }

  /** The output ends in its only trailing newline, starts with no white
      space, has no space at a line end and no three newlines in a row. */
  lemma {:induction false} StripCaptionsClean(s: string)
    ensures var r := StripCaptions(s);
      (|r| >= 2 ==> !IsWhitespace(r[0]) && !IsWhitespace(r[|r| - 2])) &&
      NoTrailingSpace(r) && NoTripleNewline(r)
  {
    CleanLinesClean(s);
    FinishClean(CleanLines(s));
  }

  /** Text that is all white space comes out as a single newline. */
  lemma {:induction false} StripAllWhitespace(s: string)
    requires AllWhitespace(s)
    ensures StripCaptions(s) == "\n"
  {
    forall i | 0 <= i < |s| - 1
      ensures !(s[i] == '[' && s[i + 1] == '!')
    {
      assert IsWhitespace(s[i]);
    }
    assert StripMarkers(s) == s;
    TrimLineEndsWhitespace(s);
    var l := TrimLineEnds(s);
    CollapseWhitespace(l);
    assert CleanLines(s) == CollapseNewlines(l);
  }

  /** Text with no marker, no space ending a line, no triple newline and
      no white space at either end comes out with just a newline added. */
  lemma {:induction false} StripCleanText(s: string)
    requires NoMarkerOpen(s) && NoTrailingSpace(s) && NoTripleNewline(s)
    requires s != [] ==> !IsWhitespace(s[0]) && !IsWhitespace(s[|s| - 1])
    ensures StripCaptions(s) == s + "\n"
  {
    TrimLineEndsKeeps(s);
    CollapseKeeps(s);
    TrimClean(s);
  }
}
