/**
 * Python `str` operations the service relies on, with CPython's semantics:
 * `isspace`, `strip`, `rstrip(ch)`, `split(ch)`, `split(sep)`, `splitlines`,
 * `join`, `count`, `in`, `upper` (ASCII letters) and `str(int)`.
 */
module PyStr {

  // ---------------------------------------------------------------------------
  // Character classes
  // ---------------------------------------------------------------------------

  /** `c.isspace()`: the characters CPython treats as whitespace (also what `\s` matches in `re`). */
  predicate IsSpace(c: char) {
    ('\t' <= c <= '\r') || ('\U{1c}' <= c <= ' ') || c == '\U{85}' || c == '\U{a0}'
    || c == '\U{1680}' || ('\U{2000}' <= c <= '\U{200a}') || c == '\U{2028}' || c == '\U{2029}'
    || c == '\U{202f}' || c == '\U{205f}' || c == '\U{3000}'
  }

  /** The line boundaries `str.splitlines()` splits on ("\r\n" counts as one boundary). */
  predicate IsLineBreak(c: char) {
    c == '\n' || c == '\r' || c == '\U{b}' || c == '\U{c}' || ('\U{1c}' <= c <= '\U{1e}')
    || c == '\U{85}' || c == '\U{2028}' || c == '\U{2029}'
  }

  /** `[a-z]` in a regular expression. */
  predicate IsLower(c: char) { 'a' <= c <= 'z' }

  /** `[a-zA-Z0-9_]` in a regular expression. */
  predicate IsIdentChar(c: char) { 'a' <= c <= 'z' || 'A' <= c <= 'Z' || '0' <= c <= '9' || c == '_' }

  predicate NoLineBreak(s: string) { forall i :: 0 <= i < |s| ==> !IsLineBreak(s[i]) }

  /** True when `s.strip() == ""`. */
  predicate Blank(s: string) { forall i :: 0 <= i < |s| ==> IsSpace(s[i]) }

  /** True when `s.strip() == s`. */
  predicate IsStripped(s: string) { s == [] || (!IsSpace(s[0]) && !IsSpace(s[|s| - 1])) }

  predicate EndsWith(s: string, c: char) { s != [] && s[|s| - 1] == c }

  predicate StartsWith(s: string, p: string) { |p| <= |s| && s[..|p|] == p }

  // ---------------------------------------------------------------------------
  // strip
  // ---------------------------------------------------------------------------

  /** Index of the first non-whitespace character of `s` at or after `k`, or `|s|`. */
  function SpaceEnd(s: string, k: nat): (i: nat)
    requires k <= |s|
    ensures k <= i <= |s|
    ensures forall m :: k <= m < i ==> IsSpace(s[m])
    ensures i < |s| ==> !IsSpace(s[i])
    decreases |s| - k
  {
    if k < |s| && IsSpace(s[k]) then SpaceEnd(s, k + 1) else k
  }

  /** One past the last non-whitespace character of `s` before `k`, or 0. */
  function SpaceStart(s: string, k: nat): (j: nat)
    requires k <= |s|
    ensures j <= k
    ensures forall m :: j <= m < k ==> IsSpace(s[m])
    ensures 0 < j ==> !IsSpace(s[j - 1])
  {
    if 0 < k && IsSpace(s[k - 1]) then SpaceStart(s, k - 1) else k
  }

  /** `SpaceEnd` is the end of the whitespace run: any run end found is it. */
  lemma SpaceEndIs(s: string, k: nat, e: nat)
    requires k <= e <= |s|
    requires forall m :: k <= m < e ==> IsSpace(s[m])
    requires e < |s| ==> !IsSpace(s[e])
    ensures SpaceEnd(s, k) == e
  {
  }

  /** `SpaceStart` is the start of the trailing whitespace: any such start found is it. */
  lemma SpaceStartIs(s: string, j: nat)
    requires j <= |s|
    requires forall m :: j <= m < |s| ==> IsSpace(s[m])
    requires 0 < j ==> !IsSpace(s[j - 1])
    ensures SpaceStart(s, |s|) == j
  {
  }

  /** `s.lstrip()` */
  function LStrip(s: string): string {
    s[SpaceEnd(s, 0)..]
  }

  /** `s.rstrip()` */
  function RStrip(s: string): string {
    s[..SpaceStart(s, |s|)]
  }

  /** `s.strip()` */
  function Strip(s: string): (r: string)
    ensures IsStripped(r)
    ensures r == [] <==> Blank(s)
  {
    var i := SpaceEnd(s, 0);
    var l := s[i..];
    var j := SpaceStart(l, |l|);
    assert i < |s| ==> l[0] == s[i];
    RStrip(l)
  }

  /** `lstrip()` leaves a text that does not start with whitespace as it is. */
  lemma LStripIdle(s: string)
    requires s == [] || !IsSpace(s[0])
    ensures LStrip(s) == s
  {
    SpaceEndIs(s, 0, 0);
  }

  /** `rstrip()` leaves a text that does not end with whitespace as it is. */
  lemma RStripIdle(s: string)
    requires s == [] || !IsSpace(s[|s| - 1])
    ensures RStrip(s) == s
  {
  }

  /** A leading whitespace character goes with `lstrip()`. */
  lemma LStripStep(s: string)
    requires s != [] && IsSpace(s[0])
    ensures LStrip(s) == LStrip(s[1..])
  {
    var t := s[1..];
    var e := SpaceEnd(t, 0);
    forall m | 0 <= m < e + 1 ensures IsSpace(s[m]) {
      if 0 < m { assert s[m] == t[m - 1]; }
    }
    if e + 1 < |s| { assert s[e + 1] == t[e]; }
    SpaceEndIs(s, 0, e + 1);
    assert s[e + 1..] == t[e..];
  }

  /** What `rstrip()` keeps is a prefix. */
  lemma RStripPrefix(s: string)
    ensures |RStrip(s)| <= |s| && RStrip(s) == s[..|RStrip(s)|]
    ensures forall k :: |RStrip(s)| <= k < |s| ==> IsSpace(s[k])
  {
  }

  /** `strip()` removes characters and adds none. */
  lemma StripKeepsOut(s: string, c: char)
    requires c !in s
    ensures c !in Strip(s)
  {
    StripChars(s);
  }

  /** Each character of `strip()` is the character of `s` at the same place after the leading whitespace. */
  lemma StripChars(s: string)
    ensures SpaceEnd(s, 0) + |Strip(s)| <= |s|
    ensures forall k :: 0 <= k < |Strip(s)| ==> Strip(s)[k] == s[SpaceEnd(s, 0) + k]
  {
    var i := SpaceEnd(s, 0);
    var l := s[i..];
    var r := RStrip(l);
    assert Strip(s) == r;
    forall k | 0 <= k < |r| ensures r[k] == s[i + k] {
      assert r[k] == l[k];
    }
  }

  lemma StripOfStripped(s: string)
    requires IsStripped(s)
    ensures Strip(s) == s
  {
    LStripIdle(s);
    RStripIdle(s);
  }

  /** Dropping one leading whitespace character does not change `strip()`. */
  lemma StripDropSpace(s: string)
    requires s != [] && IsSpace(s[0])
    ensures Strip(s) == Strip(s[1..])
  {
    LStripStep(s);
  }

  /** `s.rstrip(c)`: removes every trailing `c`. */
  function RStripChar(s: string, c: char): (r: string)
    ensures |r| <= |s| && r == s[..|r|]
    ensures !EndsWith(r, c)
    ensures forall i :: |r| <= i < |s| ==> s[i] == c
  {
    if s != [] && s[|s| - 1] == c then RStripChar(s[..|s| - 1], c) else s
  }

  /** `s.upper()` restricted to ASCII letters. */
  function Upper(s: string): (r: string)
    ensures |r| == |s|
    ensures forall i :: 0 <= i < |s| ==> (r[i] == if IsLower(s[i]) then (s[i] as int - 32) as char else s[i])
  {
    if s == [] then [] else [if IsLower(s[0]) then (s[0] as int - 32) as char else s[0]] + Upper(s[1..])
  }

  // ---------------------------------------------------------------------------
  // Searching and counting
  // ---------------------------------------------------------------------------

  /** Index of the first `c` in `s`, or `|s|` when there is none. */
  function IndexOf(s: string, c: char): (i: nat)
    ensures i <= |s|
    ensures forall k :: 0 <= k < i ==> s[k] != c
    ensures i < |s| ==> s[i] == c
  {
    IndexFrom(s, c, 0)
  }

  /** Index of the first `c` in `s` at or after `k`, or `|s|`. */
  function IndexFrom(s: string, c: char, k: nat): (i: nat)
    requires k <= |s|
    ensures k <= i <= |s|
    ensures forall m :: k <= m < i ==> s[m] != c
    ensures i < |s| ==> s[i] == c
    decreases |s| - k
  {
    if k == |s| || s[k] == c then k else IndexFrom(s, c, k + 1)
  }

  /** `IndexFrom` is the first `c` from `k`: any such index found is it. */
  lemma IndexFromIs(s: string, c: char, k: nat, e: nat)
    requires k <= e <= |s|
    requires forall m :: k <= m < e ==> s[m] != c
    requires e < |s| ==> s[e] == c
    ensures IndexFrom(s, c, k) == e
  {
  }

  /** `s.count(c)` for a one-character `c`. */
  function CountChar(s: string, c: char): nat {
    if s == [] then 0 else (if s[0] == c then 1 else 0) + CountChar(s[1..], c)
  }

  /** `sub` occurs in `s` at index `i`. */
  predicate OccursAt(s: string, sub: string, i: nat) {
    i + |sub| <= |s| && s[i..i + |sub|] == sub
  }

  /** `s.find(sub)`, as an option: the first occurrence. */
  function Find(s: string, sub: string): (r: Option<nat>)
    ensures r.Some? ==> OccursAt(s, sub, r.value)
    ensures r.Some? ==> forall i :: 0 <= i < r.value ==> !OccursAt(s, sub, i)
    ensures r.None? ==> forall i :: 0 <= i <= |s| ==> !OccursAt(s, sub, i)
  {
    if StartsWith(s, sub) then Some(0)
    else if s == [] then None
    else
      var r := Find(s[1..], sub);
      assert forall i: nat :: 1 <= i ==> (OccursAt(s, sub, i) <==> OccursAt(s[1..], sub, i - 1)) by {
        forall i: nat | 1 <= i ensures OccursAt(s, sub, i) <==> OccursAt(s[1..], sub, i - 1) {
          if i + |sub| <= |s| { assert s[1..][i - 1..i - 1 + |sub|] == s[i..i + |sub|]; }
        }
      }
      assert !OccursAt(s, sub, 0) by {
        if |sub| <= |s| { assert s[0..|sub|] == s[..|sub|]; }
      }
      if r.Some? then Some(r.value + 1) else None
  }

  /** `sub in s` */
  predicate Contains(s: string, sub: string) { Find(s, sub).Some? }

  /** `s.split(sep)[0]` */
  function FirstField(s: string, sep: string): (r: string)
    ensures |r| <= |s| && r == s[..|r|]
  {
    var f := Find(s, sep);
    if f.Some? then s[..f.value] else s
  }

  /** `s.split(sep)[1]`, which exists when `sep in s`. */
  function SecondField(s: string, sep: string): string
    requires Contains(s, sep)
  {
    var i := Find(s, sep).value;
    FirstField(s[i + |sep|..], sep)
  }

  // ---------------------------------------------------------------------------
  // split, splitlines, join
  // ---------------------------------------------------------------------------

  /** `s.split(c)` for a one-character separator; never empty. */
  function Split(s: string, c: char): (r: seq<string>)
    ensures |r| >= 1
    ensures forall x :: x in r ==> c !in x
    decreases |s|
  {
    var i := IndexOf(s, c);
    if i == |s| then [s] else [s[..i]] + Split(s[i + 1..], c)
  }

  /** `sep.join(xs)` */
  function Join(xs: seq<string>, sep: string): string {
    if |xs| == 0 then "" else if |xs| == 1 then xs[0] else xs[0] + sep + Join(xs[1..], sep)
  }

  /** Index where the first line of `s` ends: its first line boundary, or `|s|`. */
  function LineEnd(s: string): (i: nat)
    ensures i <= |s|
    ensures forall k :: 0 <= k < i ==> !IsLineBreak(s[k])
    ensures i < |s| ==> IsLineBreak(s[i])
  {
    LineEndFrom(s, 0)
  }

  /** The first line boundary of `s` at or after `k`, or `|s|`. */
  function LineEndFrom(s: string, k: nat): (i: nat)
    requires k <= |s|
    ensures k <= i <= |s|
    ensures forall m :: k <= m < i ==> !IsLineBreak(s[m])
    ensures i < |s| ==> IsLineBreak(s[i])
    decreases |s| - k
  {
    if k == |s| || IsLineBreak(s[k]) then k else LineEndFrom(s, k + 1)
  }

  /** Where the next line starts after the boundary at `i`; "\r\n" is one boundary. */
  function NextLine(s: string, i: nat): (j: nat)
    requires i < |s|
    ensures i < j <= |s|
  {
    if s[i] == '\r' && i + 1 < |s| && s[i + 1] == '\n' then i + 2 else i + 1
  }

  /** `s.splitlines()`: no boundary characters kept, no empty line after a final boundary. */
  function SplitLines(s: string): seq<string>
    decreases |s|
  {
    if s == [] then []
    else
      var i := LineEnd(s);
      if i == |s| then [s] else [s[..i]] + SplitLines(s[NextLine(s, i)..])
  }

  /** No line of `splitlines()` holds a line break. */
  lemma {:induction false} SplitLinesOneLine(s: string)
    ensures forall l :: l in SplitLines(s) ==> NoLineBreak(l)
    decreases |s|
  {
    if s != [] {
      var i := LineEnd(s);
      if i < |s| {
        SplitLinesOneLine(s[NextLine(s, i)..]);
      }
    }
  }

  /** `strip()` of a text without line breaks has none either. */
  lemma StripOneLine(s: string)
    requires NoLineBreak(s)
    ensures NoLineBreak(Strip(s))
  {
    StripChars(s);
  }

  /** The lines of `s` after `line.strip()`, as a set (the membership test of a generator). */
  function StrippedLines(s: string): set<string> {
    set l | l in SplitLines(s) :: Strip(l)
  }

  /** A text holding a line break is never one of the stripped lines of anything. */
  lemma StrippedLinesOneLine(s: string, c: string)
    requires !NoLineBreak(c)
    ensures c !in StrippedLines(s)
  {
    SplitLinesOneLine(s);
    forall l | l in SplitLines(s) ensures Strip(l) != c {
      StripOneLine(l);
    }
  }

  // ---------------------------------------------------------------------------
  // str(int)
  // ---------------------------------------------------------------------------

  function DigitChar(d: nat): char
    requires d < 10
  {
    "0123456789"[d]
  }

  /** `str(n)` for a non-negative integer. */
  function NatToString(n: nat): (r: string)
    ensures r != [] && '0' <= r[0] <= '9'
    ensures forall i :: 0 <= i < |r| ==> '0' <= r[i] <= '9'
  {
    if n < 10 then [DigitChar(n)] else NatToString(n / 10) + [DigitChar(n % 10)]
  }

  /** The numerals the worked examples need. */
  lemma SmallNumerals()
    ensures NatToString(0) == "0" && NatToString(1) == "1" && NatToString(2) == "2"
    ensures IntToString(1) == "1" && IntToString(2) == "2"
  {
    assert DigitChar(0) == '0' && DigitChar(1) == '1' && DigitChar(2) == '2';
  }

  /** `str(i)` */
  function IntToString(i: int): (r: string)
    ensures r != []
  {
    if i < 0 then "-" + NatToString(-i) else NatToString(i)
  }

  datatype Option<T> = None | Some(value: T)

  // ---------------------------------------------------------------------------
  // Lemmas about split and splitlines
  // ---------------------------------------------------------------------------

  /** `c.join(xs).split(c) == xs` when no element contains `c`. */
  lemma {:induction false} SplitJoin(xs: seq<string>, c: char)
    requires |xs| >= 1
    requires forall x :: x in xs ==> c !in x
    ensures Split(Join(xs, [c]), c) == xs
  {
    assert xs[0] in xs;
    if |xs| > 1 {
      SplitAtFirst(xs[0], Join(xs[1..], [c]), c);
      assert forall y :: y in xs[1..] ==> y in xs;
      SplitJoin(xs[1..], c);
    } else {
      NoneFound(xs[0], c);
    }
  }

  /** `split` cuts at the first separator. */
  lemma SplitAtFirst(x: string, rest: string, c: char)
    requires c !in x
    ensures Split(x + [c] + rest, c) == [x] + Split(rest, c)
  {
    var s := x + [c] + rest;
    assert IndexOf(s, c) == |x| by {
      assert forall k :: 0 <= k < |x| ==> s[k] == x[k];
      assert s[|x|] == c;
    }
    assert s[..|x|] == x;
    assert s[|x| + 1..] == rest;
  }

  lemma NoneFound(x: string, c: char)
    requires c !in x
    ensures IndexOf(x, c) == |x|
  {
  }

  /** The two parts of `a + b`, and what follows the first `k` characters of `b`. */
  lemma AppendParts(a: string, b: string, k: nat)
    requires k <= |b|
    ensures (a + b)[..|a|] == a && (a + b)[|a| + k..] == b[k..]
  {
    assert forall m :: 0 <= m < |b| - k ==> (a + b)[|a| + k..][m] == b[k..][m];
  }

  lemma DropAppend(a: string, b: string, n: nat)
    requires n <= |a|
    ensures (a + b)[n..] == a[n..] + b
  {
    assert forall k :: 0 <= k < |a| - n + |b| ==> (a + b)[n..][k] == (a[n..] + b)[k];
  }

  /** Unfolds `splitlines()` at the first boundary, found at `k`. */
  lemma SplitLinesAt(s: string, k: nat)
    requires k < |s| && IsLineBreak(s[k])
    requires forall m :: 0 <= m < k ==> !IsLineBreak(s[m])
    ensures SplitLines(s) == [s[..k]] + SplitLines(s[NextLine(s, k)..])
  {
    LineEndAt(s, k);
  }

  /** The first line boundary of `p + b` is that of `p` when `p` has one. */
  lemma LineEndPrefix(p: string, b: string)
    requires LineEnd(p) < |p|
    ensures LineEnd(p + b) == LineEnd(p)
  {
    assert forall m :: 0 <= m < |p| ==> (p + b)[m] == p[m];
    LineEndAt(p + b, LineEnd(p));
  }

  /** Lines after a final "\n" are split independently of what precedes it. */
  lemma {:induction false} SplitLinesConcat(p: string, b: string)
    requires p != [] && p[|p| - 1] == '\n'
    ensures SplitLines(p + b) == SplitLines(p) + SplitLines(b)
    decreases |p|
  {
    var i := LineEnd(p);
    assert IsLineBreak(p[|p| - 1]);
    assert i < |p|;
    LineEndPrefix(p, b);
    var s := p + b;
    assert s != [];
    var j := NextLine(p, i);
    assert NextLine(s, i) == j;
    assert s[..i] == p[..i];
    assert s[j..] == p[j..] + b;
    if j == |p| {
      assert p[j..] == [];
      assert SplitLines(p) == [p[..i]];
    } else {
      SplitLinesConcat(p[j..], b);
    }
  }

  /** Appending "\n" adds at most one empty line. */
  lemma {:induction false} SplitLinesAppendNewline(s: string)
    ensures SplitLines(s + "\n") == SplitLines(s) || SplitLines(s + "\n") == SplitLines(s) + [""]
    decreases |s|
  {
    var i := LineEnd(s);
    if i == |s| {
      AppendNewlineNoBreak(s);
      if s != [] {
        OneLineSplit(s);
      }
    } else {
      var j := NextLine(s, i);
      SplitLinesAt(s, i);
      if s[i] == '\r' && i + 1 == |s| {
        AppendNewlineAfterCr(s, i);
        assert s[j..] == [];
      } else {
        AppendNewlineAtBreak(s, i);
        var h, q := s[..i], s[j..];
        SplitLinesAppendNewline(q);
        assert [h] + (SplitLines(q) + [""]) == [h] + SplitLines(q) + [""];
      }
    }
  }

  lemma AppendNewlineNoBreak(s: string)
    requires NoLineBreak(s)
    ensures SplitLines(s + "\n") == if s == [] then [""] else [s]
  {
    var t := s + "\n";
    assert forall m :: 0 <= m < |s| ==> t[m] == s[m];
    SplitLinesAt(t, |s|);
    assert t[..|s|] == s;
    assert t[|s| + 1..] == [];
  }

  /** A final "\r" followed by the appended "\n" is one boundary. */
  lemma AppendNewlineAfterCr(s: string, i: nat)
    requires i == LineEnd(s) && i + 1 == |s| && s[i] == '\r'
    ensures SplitLines(s + "\n") == [s[..i]]
  {
    var t := s + "\n";
    assert forall m :: 0 <= m < |s| ==> t[m] == s[m];
    SplitLinesAt(t, i);
    assert t[..i] == s[..i];
    assert NextLine(t, i) == |t|;
    assert t[|t|..] == [];
  }

  /** Any other first boundary stays the first boundary after appending "\n". */
  lemma AppendNewlineAtBreak(s: string, i: nat)
    requires i == LineEnd(s) < |s| && !(s[i] == '\r' && i + 1 == |s|)
    ensures SplitLines(s + "\n") == [s[..i]] + SplitLines(s[NextLine(s, i)..] + "\n")
  {
    var t := s + "\n";
    assert forall m :: 0 <= m < |s| ==> t[m] == s[m];
    SplitLinesAt(t, i);
    assert t[..i] == s[..i];
    assert NextLine(t, i) == NextLine(s, i);
    DropAppend(s, "\n", NextLine(s, i));
  }

  /** `LineEnd` is the first boundary: one found at `k` with none before it. */
  lemma LineEndAt(s: string, k: nat)
    requires k < |s| && IsLineBreak(s[k])
    requires forall m :: 0 <= m < k ==> !IsLineBreak(s[m])
    ensures LineEnd(s) == k
  {
  }

  /** `"\n".join(xs).splitlines() == xs` for non-empty lines without boundaries. */
  lemma {:induction false} SplitLinesJoin(xs: seq<string>)
    requires forall x :: x in xs ==> x != [] && NoLineBreak(x)
    ensures SplitLines(Join(xs, "\n")) == xs
  {
    if |xs| == 1 {
      var x := xs[0];
      assert x in xs;
      assert LineEnd(x) == |x|;
    } else if |xs| > 1 {
      var x := xs[0];
      assert x in xs;
      var s := Join(xs, "\n");
      assert s == x + "\n" + Join(xs[1..], "\n");
      LineEndAt(s, |x|);
      assert NextLine(s, |x|) == |x| + 1;
      assert s[..|x|] == x;
      assert s[|x| + 1..] == Join(xs[1..], "\n");
      assert forall y :: y in xs[1..] ==> y in xs;
      SplitLinesJoin(xs[1..]);
    }
  }

  /** Dropping one leading whitespace character keeps every line that starts with a
      non-space character, and every non-empty stripped line. */
  lemma SplitLinesDropSpace(s: string)
    requires s != [] && IsSpace(s[0])
    ensures forall l :: l in SplitLines(s) && l != [] && !IsSpace(l[0]) ==> l in SplitLines(s[1..])
    ensures forall l :: l in SplitLines(s) && Strip(l) != [] ==> Strip(l) in StrippedLines(s[1..])
  {
    var i := LineEnd(s);
    if i == 0 {
      DropBoundary(s);
    } else if i == |s| {
      DropSpaceOneLine(s);
    } else {
      DropSpaceFirstLine(s);
    }
  }

  /** The case where `s` starts with a line boundary. */
  lemma DropBoundary(s: string)
    requires s != [] && IsLineBreak(s[0])
    ensures forall l :: l in SplitLines(s) && l != [] ==> l in SplitLines(s[1..])
  {
    var t := s[1..];
    assert LineEnd(s) == 0;
    var j := NextLine(s, 0);
    assert SplitLines(s) == [s[..0]] + SplitLines(s[j..]);
    if j == 2 {
      assert t[0] == '\n';
      assert LineEnd(t) == 0;
      assert NextLine(t, 0) == 1;
      assert t[1..] == s[2..];
      assert SplitLines(t) == [t[..0]] + SplitLines(s[j..]);
    } else {
      assert t == s[j..];
    }
  }

  /** The case where `s` is one line without a boundary. */
  lemma DropSpaceOneLine(s: string)
    requires s != [] && IsSpace(s[0]) && NoLineBreak(s)
    ensures SplitLines(s) == [s]
    ensures Strip(s) != [] ==> Strip(s) in StrippedLines(s[1..])
  {
    OneLineSplit(s);
    if Strip(s) != [] {
      DropSpaceStrip(s);
      NoLineBreakTail(s);
      OneLineStripped(s[1..]);
    }
  }

  /** Dropping a leading space of a text that is not blank keeps a non-empty rest with the same `strip()`. */
  lemma DropSpaceStrip(s: string)
    requires s != [] && IsSpace(s[0]) && Strip(s) != []
    ensures |s| > 1 && Strip(s) == Strip(s[1..])
  {
    StripDropSpace(s);
    assert |s| == 1 ==> Blank(s);
  }

  lemma NoLineBreakTail(s: string)
    requires s != [] && NoLineBreak(s)
    ensures NoLineBreak(s[1..])
  {
    forall k | 0 <= k < |s| - 1 ensures !IsLineBreak(s[1..][k]) {
      assert s[1..][k] == s[k + 1];
    }
  }

  /** A non-empty one-line text has its own `strip()` among its stripped lines. */
  lemma OneLineStripped(t: string)
    requires t != [] && NoLineBreak(t)
    ensures Strip(t) in StrippedLines(t)
  {
    OneLineSplit(t);
  }

  /** A non-empty text without boundaries is one line. */
  lemma OneLineSplit(t: string)
    requires t != [] && NoLineBreak(t)
    ensures SplitLines(t) == [t]
  {
    assert LineEnd(t) == |t|;
  }

  /** The case where the first line of `s` starts with a non-boundary space. */
  lemma DropSpaceFirstLine(s: string)
    requires s != [] && IsSpace(s[0]) && 0 < LineEnd(s) < |s|
    ensures forall l :: l in SplitLines(s) && l != [] && !IsSpace(l[0]) ==> l in SplitLines(s[1..])
    ensures forall l :: l in SplitLines(s) && Strip(l) != [] ==> Strip(l) in StrippedLines(s[1..])
  {
    var t := s[1..];
    var i := LineEnd(s);
    var j := NextLine(s, i);
    var first := s[..i];
    var rest := SplitLines(s[j..]);
    SplitLinesUnfold(s);
    assert SplitLines(s) == [first] + rest;
    SplitLinesAfterSpace(s);
    assert SplitLines(t) == [first[1..]] + rest;
    StripDropSpace(first);
    forall l | l in SplitLines(s) && Strip(l) != []
      ensures Strip(l) in StrippedLines(t)
    {
      if l == first { assert first[1..] in SplitLines(t); } else { assert l in SplitLines(t); }
    }
  }

  /** One step of `SplitLines` on a string with a boundary. */
  lemma SplitLinesUnfold(s: string)
    requires LineEnd(s) < |s|
    ensures SplitLines(s) == [s[..LineEnd(s)]] + SplitLines(s[NextLine(s, LineEnd(s))..])
  {
  }

  /** Dropping a leading non-boundary character shortens the first line only. */
  lemma SplitLinesAfterSpace(s: string)
    requires s != [] && !IsLineBreak(s[0]) && LineEnd(s) < |s|
    ensures SplitLines(s[1..]) == [s[1..LineEnd(s)]] + SplitLines(s[NextLine(s, LineEnd(s))..])
  {
    var t := s[1..];
    var i := LineEnd(s);
    assert LineEnd(t) == i - 1;
    assert NextLine(t, i - 1) == NextLine(s, i) - 1;
    assert t[NextLine(t, i - 1)..] == s[NextLine(s, i)..];
    assert t[..i - 1] == s[1..i];
    SplitLinesUnfold(t);
  }

  /** `lstrip()` keeps every line that starts with a non-space character and every
      non-empty stripped line. */
  lemma {:induction false} LStripKeepsLines(s: string)
    ensures forall l :: l in SplitLines(s) && l != [] && !IsSpace(l[0]) ==> l in SplitLines(LStrip(s))
    ensures forall l :: l in SplitLines(s) && Strip(l) != [] ==> Strip(l) in StrippedLines(LStrip(s))
    decreases |s|
  {
    if s != [] && IsSpace(s[0]) {
      LStripStep(s);
      SplitLinesDropSpace(s);
      LStripKeepsLines(s[1..]);
      forall l | l in SplitLines(s) && Strip(l) != []
        ensures Strip(l) in StrippedLines(LStrip(s))
      {
        var m :| m in SplitLines(s[1..]) && Strip(m) == Strip(l);
      }
    } else {
      LStripIdle(s);
    }
  }

  /** `lstrip()` of a concatenation. */
  lemma {:induction false} LStripConcat(a: string, b: string)
    ensures Blank(a) ==> LStrip(a + b) == LStrip(b)
    ensures !Blank(a) ==> LStrip(a + b) == LStrip(a) + b
    decreases |a|
  {
    if a != [] {
      assert (a + b)[0] == a[0];
      assert (a + b)[1..] == a[1..] + b;
      if IsSpace(a[0]) {
        LStripStep(a);
        LStripStep(a + b);
        LStripConcat(a[1..], b);
        BlankTail(a);
      } else {
        LStripIdle(a);
        LStripIdle(a + b);
      }
    } else {
      assert a + b == b;
    }
  }

  /** A text that starts with whitespace is blank exactly when the rest is. */
  lemma BlankTail(a: string)
    requires a != [] && IsSpace(a[0])
    ensures Blank(a) <==> Blank(a[1..])
  {
    if Blank(a[1..]) {
      forall i | 0 < i < |a| ensures IsSpace(a[i]) { assert a[i] == a[1..][i - 1]; }
    }
    if Blank(a) {
      forall i | 0 <= i < |a[1..]| ensures IsSpace(a[1..][i]) { assert a[1..][i] == a[i + 1]; }
    }
  }

  /** A join of stripped non-empty strings starts and ends with a non-space character. */
  lemma {:induction false} JoinEnds(xs: seq<string>, sep: string)
    requires |xs| >= 1
    requires forall x :: x in xs ==> x != [] && IsStripped(x)
    ensures Join(xs, sep) != [] && IsStripped(Join(xs, sep))
  {
    assert xs[0] in xs;
    if |xs| > 1 {
      assert forall y :: y in xs[1..] ==> y in xs;
      JoinEnds(xs[1..], sep);
      var j := Join(xs, sep);
      var rest := Join(xs[1..], sep);
      assert j == xs[0] + sep + rest;
      assert j[0] == xs[0][0];
      assert j[|j| - 1] == rest[|rest| - 1];
    }
  }

  // ---------------------------------------------------------------------------
  // Counting, searching and concatenation facts
  // ---------------------------------------------------------------------------

  /** What `s.find(sub)` found is `sub`, character by character. */
  lemma FindChars(s: string, sub: string)
    ensures Find(s, sub).Some? && |sub| >= 1 ==> s[Find(s, sub).value] == sub[0]
    ensures Find(s, sub).Some? && |sub| >= 2 ==> s[Find(s, sub).value + 1] == sub[1]
  {
    var f := Find(s, sub);
    if f.Some? && |sub| >= 1 {
      assert s[f.value..f.value + |sub|][0] == s[f.value];
      if |sub| >= 2 {
        assert s[f.value..f.value + |sub|][1] == s[f.value + 1];
      }
    }
  }

  lemma {:induction false} CountCharConcat(a: string, b: string, c: char)
    ensures CountChar(a + b, c) == CountChar(a, c) + CountChar(b, c)
  {
    if a != [] {
      assert (a + b)[1..] == a[1..] + b;
      CountCharConcat(a[1..], b, c);
    } else {
      assert a + b == b;
    }
  }

  lemma {:induction false} CountCharNone(s: string, c: char)
    requires forall k :: 0 <= k < |s| ==> s[k] != c
    ensures CountChar(s, c) == 0
  {
    if s != [] {
      CountCharNone(s[1..], c);
    }
  }

  lemma Assoc3<T>(a: seq<T>, b: seq<T>, c: seq<T>)
    ensures a + b + c == a + (b + c)
  {
  }

  lemma Assoc5(a: string, b: string, c: string, d: string, e: string)
    ensures a + b + c + d + e == a + (b + c + d + e)
  {
  }
}
