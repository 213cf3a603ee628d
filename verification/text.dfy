/**
 * The string primitives the pipeline relies on, written out with the exact semantics of the
 * language they come from: Python's `str.strip`, `str.splitlines`, `str.split`, `str.replace`,
 * `in`, `str.upper`, `str.title` and `str.join` for the backend, and JavaScript's `trim`,
 * `split`, `startsWith`, `includes` and `padStart` for the frontend.
 */
module Text {

  // ---------------------------------------------------------------------------------------------
  // Character classes
  // ---------------------------------------------------------------------------------------------

  /** Python's `str.isspace()`: whitespace as `str.strip()` with no argument removes it. */
  predicate IsPySpace(c: char)
  {
    || c == ' '
    || ('\t' <= c <= '\r')
    || ('\U{1C}' <= c <= '\U{1F}')
    || c == '\U{85}' || c == '\U{A0}' || c == '\U{1680}'
    || ('\U{2000}' <= c <= '\U{200A}')
    || c == '\U{2028}' || c == '\U{2029}' || c == '\U{202F}' || c == '\U{205F}' || c == '\U{3000}'
  }

  /** JavaScript's WhiteSpace and LineTerminator, as `String.prototype.trim` removes them. */
  predicate IsJsSpace(c: char)
  {
    || c == ' '
    || ('\t' <= c <= '\r')
    || c == '\U{A0}' || c == '\U{1680}'
    || ('\U{2000}' <= c <= '\U{200A}')
    || c == '\U{2028}' || c == '\U{2029}' || c == '\U{202F}' || c == '\U{205F}' || c == '\U{3000}'
    || c == '\U{FEFF}'
  }

  /** The line boundaries of Python's `str.splitlines()` ("\r\n" counts as one boundary). */
  predicate IsLineBreak(c: char)
  {
    || ('\n' <= c <= '\r')
    || ('\U{1C}' <= c <= '\U{1E}')
    || c == '\U{85}' || c == '\U{2028}' || c == '\U{2029}'
  }

  ghost predicate NoLineBreak(s: string)
  {
    forall i :: 0 <= i < |s| ==> !IsLineBreak(s[i])
  }

  predicate IsAsciiLetter(c: char)
  {
    ('a' <= c <= 'z') || ('A' <= c <= 'Z')
  }

  function UpperChar(c: char): char
  {
    if 'a' <= c <= 'z' then (c as int - 32) as char else c
  }

  function LowerChar(c: char): char
  {
    if 'A' <= c <= 'Z' then (c as int + 32) as char else c
  }

  // ---------------------------------------------------------------------------------------------
  // Strip / trim
  // ---------------------------------------------------------------------------------------------

  /** Drops the leading characters for which `ws` holds. */
  function StripStart(s: string, ws: char -> bool): (r: string)
    ensures |r| <= |s| && r == s[|s| - |r|..]
    ensures r == [] || !ws(r[0])
    ensures forall i :: 0 <= i < |s| - |r| ==> ws(s[i])
    decreases |s|
  {
    if s != [] && ws(s[0]) then StripStart(s[1..], ws) else s
  }

  /** Drops the trailing characters for which `ws` holds. */
  function StripEnd(s: string, ws: char -> bool): (r: string)
    ensures |r| <= |s| && r == s[..|r|]
    ensures r == [] || !ws(r[|r| - 1])
    ensures forall i :: |r| <= i < |s| ==> ws(s[i])
    decreases |s|
  {
    if s != [] && ws(s[|s| - 1]) then StripEnd(s[..|s| - 1], ws) else s
  }

  /** Where the stripped text starts inside `s`. */
  function StripOffset(s: string, ws: char -> bool): nat
  {
    |s| - |StripStart(s, ws)|
  }

  /**
   * Both ends stripped: the result is the slice of `s` that starts and ends with a character
   * outside `ws`, and everything cut away on either side is in `ws`.
   */
  function Strip(s: string, ws: char -> bool): (r: string)
    ensures StripOffset(s, ws) + |r| <= |s|
    ensures r == s[StripOffset(s, ws)..StripOffset(s, ws) + |r|]
    ensures r == [] || (!ws(r[0]) && !ws(r[|r| - 1]))
    ensures forall i :: 0 <= i < StripOffset(s, ws) ==> ws(s[i])
    ensures forall i :: StripOffset(s, ws) + |r| <= i < |s| ==> ws(s[i])
  {
    StripEnd(StripStart(s, ws), ws)
  }

  /** A string that already starts and ends outside `ws` is its own strip. */
  lemma StripFixed(s: string, ws: char -> bool)
    requires s == [] || (!ws(s[0]) && !ws(s[|s| - 1]))
    ensures Strip(s, ws) == s
  {
  }

  /** Stripping twice strips nothing more. */
  lemma StripIdempotent(s: string, ws: char -> bool)
    ensures Strip(Strip(s, ws), ws) == Strip(s, ws)
  {
    StripFixed(Strip(s, ws), ws);
  }

  /** Python's `s.strip()`. */
  function PyStrip(s: string): string
  {
    Strip(s, IsPySpace)
  }

  /** JavaScript's `s.trim()`. */
  function JsTrim(s: string): string
  {
    Strip(s, IsJsSpace)
  }

  // ---------------------------------------------------------------------------------------------
  // Prefixes and substrings
  // ---------------------------------------------------------------------------------------------

  /** Python's `s.startswith(p)` and JavaScript's `s.startsWith(p)`. */
  predicate StartsWith(s: string, p: string)
  {
    |p| <= |s| && s[..|p|] == p
  }

  predicate OccursAt(s: string, p: string, i: int)
  {
    0 <= i && i + |p| <= |s| && s[i..i + |p|] == p
  }

  /** Python's `p in s` and JavaScript's `s.includes(p)`. */
  predicate Contains(s: string, p: string)
  {
    exists i | 0 <= i <= |s| - |p| :: OccursAt(s, p, i)
  }

  /** An occurrence inside a slice is an occurrence in the whole string. */
  lemma OccursInSlice(s: string, a: int, b: int, p: string, i: int)
    requires 0 <= a <= b <= |s| && OccursAt(s[a..b], p, i)
    ensures OccursAt(s, p, a + i)
  {
    forall k | 0 <= k < |p| ensures s[a + i + k] == p[k] {
      assert s[a..b][i..i + |p|][k] == p[k];
    }
    assert s[a + i..a + i + |p|] == p;
  }

  /** A slice of a string that does not contain `p` does not contain it either. */
  lemma NotContainsSlice(s: string, a: int, b: int, p: string)
    requires 0 <= a <= b <= |s| && !Contains(s, p)
    ensures !Contains(s[a..b], p)
  {
    if Contains(s[a..b], p) {
      var i :| 0 <= i <= |s[a..b]| - |p| && OccursAt(s[a..b], p, i);
      OccursInSlice(s, a, b, p, i);
    }
  }

  /** Stripping a text cannot create an occurrence of a pattern. */
  lemma StripNotContains(s: string, p: string)
    requires !Contains(s, p)
    ensures !Contains(PyStrip(s), p)
  {
    var r := Strip(s, IsPySpace);
    var off := StripOffset(s, IsPySpace);
    assert r == s[off..off + |r|];
    NotContainsSlice(s, off, off + |r|, p);
  }

  /** Python's `s.upper()` on ASCII letters; other characters are kept as they are. */
  function AsciiUpper(s: string): (r: string)
    ensures |r| == |s|
    ensures forall i :: 0 <= i < |s| ==> r[i] == UpperChar(s[i])
  {
    seq(|s|, i requires 0 <= i < |s| => UpperChar(s[i]))
  }

  /** Python's `s.replace(a, b)` for single characters: every occurrence replaced. */
  function ReplaceChar(s: string, a: char, b: char): (r: string)
    ensures |r| == |s|
    ensures forall i :: 0 <= i < |s| ==> r[i] == (if s[i] == a then b else s[i])
  {
    seq(|s|, i requires 0 <= i < |s| => if s[i] == a then b else s[i])
  }

  /** The title-cased character at index i, given whether a letter precedes index 0. */
  function TitleCharAt(s: string, afterLetter: bool, i: nat): char
    requires i < |s|
  {
    var prevLetter := if i == 0 then afterLetter else IsAsciiLetter(s[i - 1]);
    if !IsAsciiLetter(s[i]) then s[i]
    else if prevLetter then LowerChar(s[i])
    else UpperChar(s[i])
  }

  /**
   * Python's `str.title()` restricted to ASCII letters: a letter that follows a letter is
   * lower-cased, any other letter is upper-cased, and every other character is kept.
   */
  function TitleFrom(s: string, afterLetter: bool): (r: string)
    ensures |r| == |s|
    ensures forall i :: 0 <= i < |s| ==> r[i] == TitleCharAt(s, afterLetter, i)
    decreases |s|
  {
    if s == [] then []
    else
      var c := s[0];
      var d := if !IsAsciiLetter(c) then c else if afterLetter then LowerChar(c) else UpperChar(c);
      var rest := TitleFrom(s[1..], IsAsciiLetter(c));
      assert forall i :: 1 <= i < |s| ==> TitleCharAt(s, afterLetter, i) == TitleCharAt(s[1..], IsAsciiLetter(c), i - 1);
      [d] + rest
  }

  function TitleCase(s: string): string
  {
    TitleFrom(s, false)
  }

  // ---------------------------------------------------------------------------------------------
  // Joining and splitting
  // ---------------------------------------------------------------------------------------------

  /** Python's `sep.join(parts)`. */
  function Join(parts: seq<string>, sep: string): string
  {
    if parts == [] then ""
    else if |parts| == 1 then parts[0]
    else parts[0] + sep + Join(parts[1..], sep)
  }

  /** `c` does not occur in `s`. */
  ghost predicate Lacks(s: string, c: char)
  {
    forall j :: 0 <= j < |s| ==> s[j] != c
  }

  /** Index of the first `c` in `s`, or `|s|` when there is none. */
  function FirstIndex(s: string, c: char): (k: nat)
    ensures k <= |s|
    ensures forall i :: 0 <= i < k ==> s[i] != c
    ensures k < |s| ==> s[k] == c
    decreases |s|
  {
    if s == [] || s[0] == c then 0 else 1 + FirstIndex(s[1..], c)
  }

  /** JavaScript's `s.split(c)` for a one-character separator: always at least one piece. */
  function SplitOn(s: string, c: char): (parts: seq<string>)
    ensures |parts| >= 1
    decreases |s|
  {
    var k := FirstIndex(s, c);
    if k == |s| then [s] else [s[..k]] + SplitOn(s[k + 1..], c)
  }

  /** The empty text is one empty piece. */
  lemma SplitOnEmpty(c: char)
    ensures SplitOn([], c) == [[]]
  {
    assert FirstIndex([], c) == 0;
  }

  /** No piece contains the separator. */
  lemma {:induction false} SplitOnLacks(s: string, c: char)
    ensures forall i :: 0 <= i < |SplitOn(s, c)| ==> Lacks(SplitOn(s, c)[i], c)
    decreases |s|
  {
    var k := FirstIndex(s, c);
    if k < |s| {
      SplitOnLacks(s[k + 1..], c);
    }
  }

  /** Splitting and re-joining with the separator gives back the original string. */
  lemma {:induction false} SplitOnJoin(s: string, c: char)
    ensures Join(SplitOn(s, c), [c]) == s
    decreases |s|
  {
    var k := FirstIndex(s, c);
    if k < |s| {
      var rest := s[k + 1..];
      var p := SplitOn(rest, c);
      SplitOnJoin(rest, c);
      var parts := [s[..k]] + p;
      assert SplitOn(s, c) == parts;
      assert parts[1..] == p;
      assert Join(parts, [c]) == s[..k] + [c] + Join(p, [c]);
      assert s == s[..k] + [c] + rest;
    }
  }

  lemma {:induction false} FirstIndexAppend(a: string, b: string, c: char)
    ensures FirstIndex(a + b, c) == if FirstIndex(a, c) < |a| then FirstIndex(a, c) else |a| + FirstIndex(b, c)
    decreases |a|
  {
    if a != [] && a[0] != c {
      assert (a + b)[1..] == a[1..] + b;
      FirstIndexAppend(a[1..], b, c);
    } else if a == [] {
      assert a + b == b;
    }
  }

  /** The pieces of `a + b` from the pieces of `a` and of `b`. */
  function Glue(pa: seq<string>, pb: seq<string>): seq<string>
    requires |pa| >= 1 && |pb| >= 1
  {
    pa[..|pa| - 1] + [pa[|pa| - 1] + pb[0]] + pb[1..]
  }

  /**
   * Splitting a concatenation: the last piece of `a` is glued to the first piece of `b`;
   * every other piece is kept.
   */
  lemma {:induction false} SplitOnAppend(a: string, b: string, c: char)
    ensures SplitOn(a + b, c) == Glue(SplitOn(a, c), SplitOn(b, c))
    decreases |a|
  {
    var k := FirstIndex(a, c);
    FirstIndexAppend(a, b, c);
    if k == |a| {
      SplitOnAppendNoSep(a, b, c);
    } else {
      var a' := a[k + 1..];
      SplitOnAppend(a', b, c);
      SplitOnAt(a, c, k);
      SplitOnAtAppend(a, b, c, k);
      GlueFront(SplitOn(a + b, c), SplitOn(a, c), a[..k], SplitOn(a', c), SplitOn(b, c), SplitOn(a' + b, c));
    }
  }

  /** `a` has no separator: its only piece is glued to the first piece of `b`. */
  lemma SplitOnAppendNoSep(a: string, b: string, c: char)
    requires FirstIndex(a, c) == |a|
    requires FirstIndex(a + b, c) == |a| + FirstIndex(b, c)
    ensures SplitOn(a + b, c) == Glue(SplitOn(a, c), SplitOn(b, c))
  {
    SplitOnNoSep(a, c);
    if FirstIndex(b, c) < |b| {
      SplitOnAppendCut(a, b, c);
    } else {
      var pb := SplitOn(b, c);
      assert pb == [b];
      assert SplitOn(a + b, c) == [a + b];
    }
  }

  /** `a` has no separator and `b` has one: `a` is glued to the first piece of `b`. */
  lemma SplitOnAppendCut(a: string, b: string, c: char)
    requires FirstIndex(b, c) < |b|
    requires FirstIndex(a + b, c) == |a| + FirstIndex(b, c)
    ensures SplitOn(a + b, c) == Glue([a], SplitOn(b, c))
  {
    var kb := FirstIndex(b, c);
    var rest := SplitOn(b[kb + 1..], c);
    SplitOnAt(a + b, c, |a| + kb);
    AppendSlices(a, b, kb);
    AppendSlices(a, b, kb + 1);
    SplitOnAt(b, c, kb);
    GlueOne(a, b[..kb], rest);
  }

  /** Gluing a single piece onto the front of a split. */
  lemma GlueOne(a: string, x: string, rest: seq<string>)
    ensures Glue([a], [x] + rest) == [a + x] + rest
  {
    assert ([x] + rest)[1..] == rest;
  }

  /** A text with a separator: its first piece, then the pieces after that separator. */
  lemma {:induction false} SplitOnAt(s: string, c: char, k: nat)
    requires k == FirstIndex(s, c) < |s|
    ensures SplitOn(s, c) == [s[..k]] + SplitOn(s[k + 1..], c)
  {
  }

  /** Slicing a concatenation past the whole of its first part. */
  lemma AppendSlices(a: string, b: string, j: nat)
    requires j <= |b|
    ensures (a + b)[..|a| + j] == a + b[..j] && (a + b)[|a| + j..] == b[j..]
  {
  }

  /** A piece in front of both sides of a glue stays in front. */
  lemma GlueFront(whole: seq<string>, pa: seq<string>, h: string, tail: seq<string>, pb: seq<string>, rest: seq<string>)
    requires |tail| >= 1 && |pb| >= 1
    requires pa == [h] + tail && whole == [h] + rest && rest == Glue(tail, pb)
    ensures whole == Glue(pa, pb)
  {
    GlueCons(h, tail, pb);
  }

  /** A separator inside `a` cuts `a + b` there. */
  lemma SplitOnAtAppend(a: string, b: string, c: char, k: nat)
    requires k == FirstIndex(a, c) < |a| && FirstIndex(a + b, c) == k
    ensures SplitOn(a + b, c) == [a[..k]] + SplitOn(a[k + 1..] + b, c)
  {
    SplitOnAt(a + b, c, k);
    assert (a + b)[..k] == a[..k];
    assert (a + b)[k + 1..] == a[k + 1..] + b;
  }

  lemma GlueCons(h: string, p: seq<string>, q: seq<string>)
    requires |p| >= 1 && |q| >= 1
    ensures Glue([h] + p, q) == [h] + Glue(p, q)
  {
    var hp := [h] + p;
    assert hp[..|hp| - 1] == [h] + p[..|p| - 1];
    assert hp[|hp| - 1] == p[|p| - 1];
  }

  lemma SplitOnNoSep(a: string, c: char)
    requires FirstIndex(a, c) == |a|
    ensures SplitOn(a, c) == [a]
  {
  }

  /** Index of the first line boundary in `s`, or `|s|`. */
  function FirstBreak(s: string): (k: nat)
    ensures k <= |s|
    ensures forall i :: 0 <= i < k ==> !IsLineBreak(s[i])
    ensures k < |s| ==> IsLineBreak(s[k])
    decreases |s|
  {
    if s == [] || IsLineBreak(s[0]) then 0 else 1 + FirstBreak(s[1..])
  }

  /**
   * Python's `s.splitlines()`: the lines without their terminators, "\r\n" taken as one
   * terminator, no trailing empty line after a final terminator, and `[]` for "".
   */
  function SplitLines(s: string): (lines: seq<string>)
    ensures forall i :: 0 <= i < |lines| ==> NoLineBreak(lines[i])
    decreases |s|
  {
    if s == [] then []
    else
      var k := FirstBreak(s);
      if k == |s| then [s]
      else
        var next := if s[k] == '\r' && k + 1 < |s| && s[k + 1] == '\n' then k + 2 else k + 1;
        [s[..k]] + SplitLines(s[next..])
  }

  /** Non-empty lines free of line boundaries are exactly recovered from their "\n"-join. */
  lemma {:induction false} SplitLinesOfJoin(cs: seq<string>)
    requires forall i :: 0 <= i < |cs| ==> cs[i] != [] && NoLineBreak(cs[i])
    ensures SplitLines(Join(cs, "\n")) == cs
  {
    if |cs| == 1 {
      assert FirstBreak(cs[0]) == |cs[0]|;
    } else if |cs| > 1 {
      var s := Join(cs, "\n");
      var rest := Join(cs[1..], "\n");
      assert s == cs[0] + "\n" + rest;
      FirstBreakAt(cs[0], rest);
      assert s[..|cs[0]|] == cs[0];
      assert s[|cs[0]| + 1..] == rest;
      SplitLinesOfJoin(cs[1..]);
    }
  }

  lemma FirstBreakAt(a: string, rest: string)
    requires NoLineBreak(a)
    ensures FirstBreak(a + "\n" + rest) == |a|
    decreases |a|
  {
    if a != [] {
      assert (a + "\n" + rest)[1..] == a[1..] + "\n" + rest;
      FirstBreakAt(a[1..], rest);
    }
  }

  /** A double space starting at index i. */
  predicate DoubleSpaceAt(s: string, i: int)
  {
    0 <= i && i + 1 < |s| && s[i] == ' ' && s[i + 1] == ' '
  }

  ghost predicate NoDoubleSpace(s: string)
  {
    forall i :: !DoubleSpaceAt(s, i)
  }

  /** Index of the leftmost double space in `s`, or `|s|`. */
  function FirstDoubleSpace(s: string): (k: nat)
    ensures k <= |s|
    ensures k < |s| ==> DoubleSpaceAt(s, k)
    ensures forall i :: 0 <= i < k ==> !DoubleSpaceAt(s, i)
    ensures k == |s| ==> NoDoubleSpace(s)
    decreases |s|
  {
    if |s| < 2 then |s|
    else if s[0] == ' ' && s[1] == ' ' then 0
    else
      var k' := FirstDoubleSpace(s[1..]);
      assert forall i :: 0 < i ==> DoubleSpaceAt(s, i) == DoubleSpaceAt(s[1..], i - 1);
      1 + k'
  }

  /**
   * Python's `s.split("  ")`: pieces between non-overlapping double spaces found left to right;
   * `"".split("  ") == [""]`.
   */
  function SplitDoubleSpace(s: string): (parts: seq<string>)
    ensures |parts| >= 1
    ensures forall i :: 0 <= i < |parts| ==> NoDoubleSpace(parts[i])
    decreases |s|
  {
    var k := FirstDoubleSpace(s);
    if k == |s| then [s]
    else
      assert NoDoubleSpace(s[..k]) by {
        forall i ensures !DoubleSpaceAt(s[..k], i) {
          if DoubleSpaceAt(s[..k], i) { assert DoubleSpaceAt(s, i); }
        }
      }
      [s[..k]] + SplitDoubleSpace(s[k + 2..])
  }

  /** A string without double spaces is a single piece. */
  lemma SplitDoubleSpaceNone(s: string)
    requires NoDoubleSpace(s)
    ensures SplitDoubleSpace(s) == [s]
  {
  }

  /** Python's `s.replace(pat, "")`: occurrences removed left to right, without overlap. */
  function RemoveAll(s: string, pat: string): (r: string)
    requires pat != []
    ensures |r| <= |s|
    decreases |s|
  {
    if s == [] then []
    else if StartsWith(s, pat) then RemoveAll(s[|pat|..], pat)
    else [s[0]] + RemoveAll(s[1..], pat)
  }

  /** The Markdown code-fence marker. */
  const Fence: string := "```"

  /** `n` backticks. */
  function Backticks(n: nat): (r: string)
    ensures |r| == n
    ensures forall i :: 0 <= i < n ==> r[i] == '`'
  {
    if n == 0 then [] else ['`'] + Backticks(n - 1)
  }

  /** A run of `n` backticks followed by something else loses its fences: `n % 3` backticks remain. */
  lemma {:induction false} RemoveFenceRun(n: nat, u: string)
    requires u == [] || u[0] != '`'
    ensures RemoveAll(Backticks(n) + u, Fence) == Backticks(n % 3) + RemoveAll(u, Fence)
  {
    ModThree(n);
    if n >= 3 {
      RemoveFenceRun(n - 3, u);
      RemoveFenceThree(n, u);
    } else {
      RemoveFenceShort(n, u);
    }
  }

  /** Taking three off a count leaves its remainder by three. */
  lemma ModThree(n: nat)
    ensures n >= 3 ==> (n - 3) % 3 == n % 3
    ensures n < 3 ==> n % 3 == n
  {
  }

  /** Fewer than three backticks in front of something else are all kept. */
  lemma {:induction false} RemoveFenceShort(n: nat, u: string)
    requires n < 3 && (u == [] || u[0] != '`')
    ensures RemoveAll(Backticks(n) + u, Fence) == Backticks(n) + RemoveAll(u, Fence)
  {
    if n == 0 {
      assert Backticks(n) + u == u;
    } else {
      RemoveFenceShort(n - 1, u);
      RemoveFenceOne(n, u);
      assert Backticks(n) == ['`'] + Backticks(n - 1);
    }
  }

  /** One step of RemoveFenceRun: a leading fence is dropped. */
  lemma RemoveFenceThree(n: nat, u: string)
    requires n >= 3
    ensures RemoveAll(Backticks(n) + u, Fence) == RemoveAll(Backticks(n - 3) + u, Fence)
  {
    var s := Backticks(n) + u;
    assert |Fence| == 3 && s[..3] == Fence;
    assert s[3..] == Backticks(n - 3) + u;
  }

  /** One step of RemoveFenceRun: fewer than three leading backticks are kept. */
  lemma RemoveFenceOne(n: nat, u: string)
    requires 0 < n < 3 && (u == [] || u[0] != '`')
    ensures RemoveAll(Backticks(n) + u, Fence) == ['`'] + RemoveAll(Backticks(n - 1) + u, Fence)
  {
    var s := Backticks(n) + u;
    assert !StartsWith(s, Fence) by {
      if |s| >= 3 { assert s[..3][n] == s[n] == u[0]; }
    }
    assert s[0] == '`' && s[1..] == Backticks(n - 1) + u;
  }

  /** A non-backtick in front of fence-free text makes no fence. */
  lemma NoFenceAfterOther(c: char, y: string)
    requires c != '`' && !Contains(y, Fence)
    ensures !Contains([c] + y, Fence)
  {
    var z := [c] + y;
    forall i | 0 <= i <= |z| - 3 ensures !OccursAt(z, Fence, i) {
      if i >= 1 {
        assert OccursAt(z, Fence, i) ==> OccursAt(y, Fence, i - 1) by {
          assert z[i..i + 3] == y[i - 1..i + 2];
        }
      } else {
        assert z[i..i + 3][0] == c;
      }
    }
  }

  /** At most two backticks in front of fence-free text not starting with a backtick make no fence. */
  lemma NoFenceAfterTicks(m: nat, y: string)
    requires m <= 2 && (y == [] || y[0] != '`') && !Contains(y, Fence)
    ensures !Contains(Backticks(m) + y, Fence)
  {
    var z := Backticks(m) + y;
    forall i | 0 <= i <= |z| - 3 ensures !OccursAt(z, Fence, i) {
      if i >= m {
        assert OccursAt(z, Fence, i) ==> OccursAt(y, Fence, i - m) by {
          assert z[i..i + 3] == y[i - m..i - m + 3];
        }
      } else {
        assert z[i..i + 3][m - i] == z[m] == y[0];
      }
    }
  }

  /** Removing fences from text that starts with another character keeps that character. */
  lemma RemoveFenceOther(s: string)
    requires s != [] && s[0] != '`'
    ensures RemoveAll(s, Fence) == [s[0]] + RemoveAll(s[1..], Fence)
  {
    assert !StartsWith(s, Fence) by {
      if |s| >= 3 { assert s[..3][0] == s[0]; }
    }
  }

  /** Number of backticks `s` starts with. */
  function LeadingTicks(s: string): (k: nat)
    ensures k <= |s|
    ensures s[..k] == Backticks(k)
    ensures k == |s| || s[k] != '`'
  {
    if s == [] || s[0] != '`' then 0
    else
      var k := 1 + LeadingTicks(s[1..]);
      assert s[..k] == ['`'] + s[1..][..k - 1];
      k
  }

  /** After `s.replace("```", "")` no code fence is left. */
  lemma {:induction false} RemoveFenceComplete(s: string)
    ensures !Contains(RemoveAll(s, Fence), Fence)
    decreases |s|
  {
    if s == [] {
    } else if s[0] != '`' {
      RemoveFenceOther(s);
      RemoveFenceComplete(s[1..]);
      NoFenceAfterOther(s[0], RemoveAll(s[1..], Fence));
    } else {
      var k := LeadingTicks(s);
      var u := s[k..];
      assert s == Backticks(k) + u;
      RemoveFenceRun(k, u);
      RemoveFenceComplete(u);
      var ru := RemoveAll(u, Fence);
      assert ru == [] || ru[0] != '`' by {
        if u != [] { RemoveFenceOther(u); }
      }
      NoFenceAfterTicks(k % 3, ru);
    }
  }

  // ---------------------------------------------------------------------------------------------
  // Decimal numbers
  // ---------------------------------------------------------------------------------------------

  predicate IsDigit(c: char)
  {
    '0' <= c <= '9'
  }

  ghost predicate AllDigits(s: string)
  {
    forall i :: 0 <= i < |s| ==> IsDigit(s[i])
  }

  function DigitChar(d: nat): (c: char)
    requires d < 10
    ensures IsDigit(c)
  {
    ('0' as int + d) as char
  }

  /** Python's `str(n)` and JavaScript's `n.toString()` for a natural number. */
  function NatToString(n: nat): (s: string)
    ensures s != [] && AllDigits(s)
    ensures |s| == 1 <==> n < 10
  {
    if n < 10 then [DigitChar(n)] else NatToString(n / 10) + [DigitChar(n % 10)]
  }

  /** The number a string of decimal digits denotes. */
  function DecimalValue(s: string): nat
    requires AllDigits(s)
  {
    if s == [] then 0 else DecimalValue(s[..|s| - 1]) * 10 + (s[|s| - 1] as int - '0' as int)
  }

  /** Printing a number and reading it back gives the number. */
  lemma {:induction false} DecimalRoundTrip(n: nat)
    ensures DecimalValue(NatToString(n)) == n
  {
    if n >= 10 {
      var s := NatToString(n);
      assert s[..|s| - 1] == NatToString(n / 10);
      DecimalRoundTrip(n / 10);
    }
  }

  /** The decimal rendering is canonical: only zero itself starts with the digit 0. */
  lemma {:induction false} DecimalCanonical(n: nat)
    ensures NatToString(n)[0] == '0' <==> n == 0
  {
    if n >= 10 {
      assert NatToString(n)[0] == NatToString(n / 10)[0];
      DecimalCanonical(n / 10);
    }
  }
}
