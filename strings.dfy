/** Text helpers that follow the semantics of the Python string operations the
    scripts rely on: `in` on strings, `lower()`, `strip()`, `splitlines()` and
    `"sep".join(...)`. Strings are sequences of Unicode scalar values. */
module Strings {

  /** Python's `k in t` on strings: `k` occurs as a contiguous slice of `t`. */
  predicate Contains(t: string, k: string) {
    exists i :: 0 <= i <= |t| - |k| && OccursAt(t, k, i)
  }

  /** `k` occurs in `t` starting at index `i`. */
  predicate OccursAt(t: string, k: string, i: int) {
    0 <= i <= |t| - |k| && t[i..i + |k|] == k
  }

  /** Lower-casing of one character (ASCII letters only). */
  function LowerChar(c: char): char {
    if 'A' <= c <= 'Z' then (c as int + 32) as char else c
  }

  /** `s.lower()`, restricted to ASCII letters. */
  function Lower(s: string): (r: string)
    ensures |r| == |s|
    ensures forall i :: 0 <= i < |s| ==> r[i] == LowerChar(s[i])
  {
    if s == [] then [] else [LowerChar(s[0])] + Lower(s[1..])
  }

  /** Lower-casing twice is lower-casing once. */
  lemma LowerIdempotent(s: string)
    ensures Lower(Lower(s)) == Lower(s)
  {
    assert forall i :: 0 <= i < |s| ==> Lower(Lower(s))[i] == Lower(s)[i];
  }

  /** The characters Python's `str.isspace()` accepts; `strip()` removes exactly these. */
  predicate IsSpace(c: char) {
    var n := c as int;
    (0x09 <= n <= 0x0D) || (0x1C <= n <= 0x20) || n == 0x85 || n == 0xA0 || n == 0x1680 ||
    (0x2000 <= n <= 0x200A) || n == 0x2028 || n == 0x2029 || n == 0x202F || n == 0x205F ||
    n == 0x3000
  }

  predicate AllSpace(s: string) {
    forall i :: 0 <= i < |s| ==> IsSpace(s[i])
  }

  /** `s.lstrip()` */
  function TrimStart(s: string): string {
    if s != [] && IsSpace(s[0]) then TrimStart(s[1..]) else s
  }

  /** `lstrip` keeps a suffix that does not start with whitespace and drops only
      whitespace. */
  lemma {:induction false} TrimStartShape(s: string)
    ensures var r := TrimStart(s);
      && |r| <= |s| && r == s[|s| - |r|..]
      && (r != [] ==> !IsSpace(r[0]))
      && AllSpace(s[..|s| - |r|])
  {
    if s != [] && IsSpace(s[0]) {
      TrimStartShape(s[1..]);
      TrimStartStep(s, TrimStart(s[1..]));
    }
  }

  /** Dropping one more leading whitespace character keeps `TrimStart`'s promises. */
  lemma TrimStartStep(s: string, r: string)
    requires s != [] && IsSpace(s[0])
    requires |r| <= |s| - 1 && r == s[1..][|s| - 1 - |r|..] && AllSpace(s[1..][..|s| - 1 - |r|])
    ensures r == s[|s| - |r|..] && AllSpace(s[..|s| - |r|])
  {
    var dropped := s[..|s| - |r|];
    var rest := s[1..][..|s| - 1 - |r|];
    forall j | 0 <= j < |dropped| ensures IsSpace(dropped[j]) {
      if j > 0 {
        assert rest[j - 1] == dropped[j];
      }
    }
  }

  /** `s.rstrip()` */
  function TrimEnd(s: string): string {
    if s != [] && IsSpace(s[|s| - 1]) then TrimEnd(s[..|s| - 1]) else s
  }

  /** `rstrip` keeps a prefix that does not end with whitespace and drops only
      whitespace. */
  lemma {:induction false} TrimEndShape(s: string)
    ensures var r := TrimEnd(s);
      && |r| <= |s| && r == s[..|r|]
      && (r != [] ==> !IsSpace(r[|r| - 1]))
      && AllSpace(s[|r|..])
  {
    if s != [] && IsSpace(s[|s| - 1]) {
      TrimEndShape(s[..|s| - 1]);
      TrimEndStep(s, TrimEnd(s[..|s| - 1]));
    }
  }

  /** Dropping one more trailing whitespace character keeps `TrimEnd`'s promises. */
  lemma TrimEndStep(s: string, r: string)
    requires s != [] && IsSpace(s[|s| - 1])
    requires |r| <= |s| - 1 && r == s[..|s| - 1][..|r|] && AllSpace(s[..|s| - 1][|r|..])
    ensures r == s[..|r|] && AllSpace(s[|r|..])
  {
    var t := s[..|s| - 1];
    forall j | 0 <= j < |s| - |r| ensures IsSpace(s[|r|..][j]) {
      if |r| + j < |s| - 1 {
        assert t[|r|..][j] == s[|r| + j];
      }
    }
  }

  /** `s.strip()`: the result is a slice of `s` that neither starts nor ends with
      whitespace, and it is empty exactly when `s` is all whitespace. */
  function Strip(s: string): (r: string)
    ensures |r| <= |s|
    ensures exists a, b :: 0 <= a <= b <= |s| && r == s[a..b] && AllSpace(s[..a]) && AllSpace(s[b..])
    ensures r == [] <==> AllSpace(s)
    ensures r != [] ==> !IsSpace(r[0]) && !IsSpace(r[|r| - 1])
  {
    StripShape(s);
    TrimStart(TrimEnd(s))
  }

  /** What `Strip` promises, about the two trims it is made of. */
  lemma StripShape(s: string)
    ensures var r := TrimStart(TrimEnd(s));
      && |r| <= |s|
      && (exists a, b :: 0 <= a <= b <= |s| && r == s[a..b] && AllSpace(s[..a]) && AllSpace(s[b..]))
      && (r == [] <==> AllSpace(s))
      && (r != [] ==> !IsSpace(r[0]) && !IsSpace(r[|r| - 1]))
  {
    var e := TrimEnd(s);
    var r := TrimStart(e);
    TrimEndShape(s);
    TrimStartShape(e);
    var k := |e| - |r|;
    assert r == s[k..|e|] && s[..k] == e[..k];
    if r == [] {
      assert e[..|e|] == e;
      AllSpaceSplit(s, |e|);
    } else {
      assert r[0] == e[k] == s[k];
      assert r[|r| - 1] == e[|e| - 1];
    }
  }

  /** A text is all whitespace when both sides of a cut are. */
  lemma AllSpaceSplit(s: string, n: nat)
    requires n <= |s| && AllSpace(s[..n]) && AllSpace(s[n..])
    ensures AllSpace(s)
  {
    forall i | 0 <= i < |s| ensures IsSpace(s[i]) {
      if i < n {
        assert s[..n][i] == s[i];
      } else {
        assert s[n..][i - n] == s[i];
      }
    }
  }

  /** Stripping is idempotent. */
  lemma StripIdempotent(s: string)
    ensures Strip(Strip(s)) == Strip(s)
  {
    var r := Strip(s);
    if r != [] {
      assert TrimEnd(r) == r;
      assert TrimStart(r) == r;
    }
  }

  /** The characters Python's `str.splitlines()` treats as line boundaries
      (`"\r\n"` counts as a single boundary). */
  predicate IsLineBreak(c: char) {
    var n := c as int;
    (0x0A <= n <= 0x0D) || (0x1C <= n <= 0x1E) || n == 0x85 || n == 0x2028 || n == 0x2029
  }

  predicate NoBreak(s: string) {
    forall i :: 0 <= i < |s| ==> !IsLineBreak(s[i])
  }

  /** Index of the first line boundary in `s`, or `|s|` when there is none. */
  function LineEnd(s: string): (i: nat)
    ensures i <= |s|
    ensures i < |s| ==> IsLineBreak(s[i])
    ensures NoBreak(s[..i])
  {
    if s == [] || IsLineBreak(s[0]) then 0 else 1 + LineEnd(s[1..])
  }

  /** The first line boundary is at `n` when `s[..n]` has none and `s[n]` is one. */
  lemma {:induction false} LineEndAt(s: string, n: nat)
    requires n <= |s| && NoBreak(s[..n])
    requires n < |s| ==> IsLineBreak(s[n])
    ensures LineEnd(s) == n
  {
    if n > 0 {
      assert s[..n][0] == s[0];
      assert s[1..][..n - 1] == s[..n][1..];
      LineEndAt(s[1..], n - 1);
    }
  }

  /** Where the line cut at boundary `i` ends: after `"\r\n"` when that pair is
      at `i`, after the single boundary character otherwise. */
  function BreakEnd(s: string, i: nat): (next: nat)
    requires i < |s|
    ensures i < next <= |s|
  {
    if s[i] == '\r' && i + 1 < |s| && s[i + 1] == '\n' then i + 2 else i + 1
  }

  /** `s.splitlines()`: the pieces between line boundaries, with no trailing empty
      piece after a final boundary. */
  function SplitLines(s: string): (lines: seq<string>)
    ensures forall j :: 0 <= j < |lines| ==> NoBreak(lines[j])
    ensures s == [] <==> lines == []
    decreases |s|
  {
    if s == [] then []
    else
      var i := LineEnd(s);
      if i == |s| then [s]
      else [s[..i]] + SplitLines(s[BreakEnd(s, i)..])
  }

  /** The boundary each line of `SplitLines(s)` was cut at, `""` for a last line
      that runs to the end of the text. */
  function LineBreaks(s: string): seq<string>
    decreases |s|
  {
    if s == [] then []
    else
      var i := LineEnd(s);
      if i == |s| then [""]
      else [s[i..BreakEnd(s, i)]] + LineBreaks(s[BreakEnd(s, i)..])
  }

  /** A whole boundary: `"\r\n"` or one boundary character. */
  predicate IsBreakText(b: string) {
    b == "\r\n" || (|b| == 1 && IsLineBreak(b[0]))
  }

  /** Each line followed by its boundary, all concatenated. */
  function Rejoin(lines: seq<string>, breaks: seq<string>): string
    requires |lines| == |breaks|
  {
    if lines == [] then [] else lines[0] + breaks[0] + Rejoin(lines[1..], breaks[1..])
  }

  /** The text cut at a boundary: before it, the whole boundary, after it. */
  lemma BreakCut(s: string, i: nat)
    requires i < |s| && IsLineBreak(s[i])
    ensures var next := BreakEnd(s, i); s == s[..i] + s[i..next] + s[next..] && IsBreakText(s[i..next])
  {
    var next := BreakEnd(s, i);
    var cut := s[i..next];
    if next == i + 2 {
      assert cut == "\r\n";
    } else {
      assert cut == [s[i]];
    }
    assert s[..next] == s[..i] + cut;
    assert s == s[..next] + s[next..];
  }

  /** One step of the split: the first line, its boundary, and the split of the
      rest of the text. */
  lemma SplitStep(s: string)
    requires s != [] && LineEnd(s) < |s|
    ensures var i := LineEnd(s); var next := BreakEnd(s, i);
      && SplitLines(s) == [s[..i]] + SplitLines(s[next..])
      && LineBreaks(s) == [s[i..next]] + LineBreaks(s[next..])
      && s == s[..i] + s[i..next] + s[next..]
      && IsBreakText(s[i..next])
  {
    BreakCut(s, LineEnd(s));
  }

  /** `splitlines` loses nothing but the boundaries: putting each line back in
      front of the boundary it was cut at gives the text again. */
  lemma {:induction false} SplitLinesRejoin(s: string)
    ensures |LineBreaks(s)| == |SplitLines(s)|
    ensures Rejoin(SplitLines(s), LineBreaks(s)) == s
    decreases |s|
  {
    if s != [] && LineEnd(s) < |s| {
      var next := BreakEnd(s, LineEnd(s));
      SplitStep(s);
      SplitLinesRejoin(s[next..]);
    }
  }

  /** Every boundary is whole; only the last line may run to the end of the text,
      and that last line is then not empty. */
  lemma {:induction false} LineBreaksWhole(s: string)
    ensures var lines := SplitLines(s); var breaks := LineBreaks(s);
      && |breaks| == |lines|
      && (forall j :: 0 <= j < |breaks| - 1 ==> IsBreakText(breaks[j]))
      && (breaks != [] ==> IsBreakText(breaks[|breaks| - 1]) || breaks[|breaks| - 1] == "")
      && (lines != [] ==> lines[|lines| - 1] != "" || breaks[|breaks| - 1] != "")
    decreases |s|
  {
    SplitLinesRejoin(s);
    if s != [] && LineEnd(s) < |s| {
      var next := BreakEnd(s, LineEnd(s));
      SplitStep(s);
      LineBreaksWhole(s[next..]);
      var tail := LineBreaks(s[next..]);
      assert forall j :: 1 <= j < |tail| + 1 ==> LineBreaks(s)[j] == tail[j - 1];
    }
  }

  /** A `"\r\n"` pair is one boundary: a lone `"\r"` boundary is never followed
      by an empty line cut at `"\n"`. */
  lemma {:induction false} LineBreaksKeepCrLf(s: string)
    ensures var lines := SplitLines(s); var breaks := LineBreaks(s);
      |breaks| == |lines| &&
      forall j :: 0 <= j < |breaks| - 1 ==> !(breaks[j] == "\r" && lines[j + 1] == "" && breaks[j + 1] == "\n")
    decreases |s|
  {
    SplitLinesRejoin(s);
    if s != [] && LineEnd(s) < |s| {
      var i := LineEnd(s);
      var next := BreakEnd(s, i);
      var rest := s[next..];
      SplitStep(s);
      LineBreaksKeepCrLf(rest);
      SplitLinesRejoin(rest);
      var lines, breaks := SplitLines(s), LineBreaks(s);
      assert forall j :: 1 <= j < |breaks| ==> lines[j] == SplitLines(rest)[j - 1] && breaks[j] == LineBreaks(rest)[j - 1];
      if rest != [] && breaks[0] == "\r" && LineEnd(rest) == 0 {
        assert s[i] == '\r' && next == i + 1 && rest[0] == s[i + 1] && s[i + 1] != '\n';
        if LineEnd(rest) < |rest| {
          SplitStep(rest);
          assert LineBreaks(rest)[0] == rest[0..BreakEnd(rest, 0)];
        }
      }
    }
  }

  /** `sep.join(xs)` */
  function Join(sep: string, xs: seq<string>): string {
    if xs == [] then "" else if |xs| == 1 then xs[0] else xs[0] + sep + Join(sep, xs[1..])
  }

  /** Splitting a newline-joined list of break-free lines gives the lines back,
      provided the last line is not empty (`splitlines` drops a final empty piece). */
  lemma {:induction false} SplitLinesJoin(xs: seq<string>)
    requires forall j :: 0 <= j < |xs| ==> NoBreak(xs[j])
    requires xs != [] ==> xs[|xs| - 1] != ""
    ensures SplitLines(Join("\n", xs)) == xs
  {
    if |xs| == 1 {
      var s := xs[0];
      assert s[..|s|] == s;
      LineEndAt(s, |s|);
    } else if |xs| > 1 {
      var x := xs[0];
      var rest := Join("\n", xs[1..]);
      var s := x + "\n" + rest;
      assert Join("\n", xs) == s;
      assert s[..|x|] == x;
      LineEndAt(s, |x|);
      assert s[|x| + 1..] == rest;
      SplitLinesJoin(xs[1..]);
    }
  }

  function DigitChar(d: nat): char
    requires d < 10
  {
    ('0' as int + d) as char
  }

  /** `str(n)` for a non-negative integer. */
  function NatToString(n: nat): string {
    if n < 10 then [DigitChar(n)] else NatToString(n / 10) + [DigitChar(n % 10)]
  }
}
