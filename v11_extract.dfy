/**
 * Clause extraction of v11 (`MCRService._extract_prolog`): every match of
 * `^[a-z][a-zA-Z0-9_]*\((?:.|\n)*?\)\.?\s*(?::-.*)?` (multi-line mode) in the
 * model's reply, stripped, with a `.` appended when it does not end in one.
 */
module V11Extract {
  import opened PyStr

  // ---------------------------------------------------------------------------
  // Scanning helpers
  // ---------------------------------------------------------------------------

  /** End of the run of `[a-zA-Z0-9_]` that starts at `i`. */
  function IdentEnd(s: string, i: nat): (e: nat)
    requires i <= |s|
    ensures i <= e <= |s|
    ensures forall k :: i <= k < e ==> IsIdentChar(s[k])
    ensures e < |s| ==> !IsIdentChar(s[e])
    decreases |s| - i
  {
    if i < |s| && IsIdentChar(s[i]) then IdentEnd(s, i + 1) else i
  }

  lemma IdentEndIs(s: string, i: nat, e: nat)
    requires i <= e <= |s|
    requires forall k :: i <= k < e ==> IsIdentChar(s[k])
    requires e < |s| ==> !IsIdentChar(s[e])
    ensures IdentEnd(s, i) == e
  {
  }

  // ---------------------------------------------------------------------------
  // One match
  // ---------------------------------------------------------------------------

  /** `s` begins with `[a-z][a-zA-Z0-9_]*\(`. */
  predicate CallStart(s: string) {
    s != [] && IsLower(s[0]) && IdentEnd(s, 1) < |s| && s[IdentEnd(s, 1)] == '('
  }

  /** Index of the `(` after the leading name. */
  function OpenParen(s: string): nat
    requires CallStart(s)
  {
    IdentEnd(s, 1)
  }

  /** Index of the first `)` after that `(` (on any line), or `|s|`. */
  function CloseParen(s: string): (i: nat)
    requires CallStart(s)
    ensures OpenParen(s) < i <= |s|
  {
    IndexFrom(s, ')', OpenParen(s) + 1)
  }

  /** A call that is closed: `name(` followed somewhere by `)`. */
  predicate ClosedCall(s: string) { CallStart(s) && CloseParen(s) < |s| }

  /** The call structure of `s` is decided by its first `CloseParen(s) + 1` characters. */
  lemma CallPrefix(s: string, t: string)
    requires ClosedCall(s)
    requires CloseParen(s) < |t| && t[..CloseParen(s) + 1] == s[..CloseParen(s) + 1]
    ensures ClosedCall(t) && OpenParen(t) == OpenParen(s) && CloseParen(t) == CloseParen(s)
  {
    var o := OpenParen(s);
    var c := CloseParen(s);
    assert forall k :: 0 <= k <= c ==> t[k] == s[k] by {
      forall k | 0 <= k <= c ensures t[k] == s[k] {
        assert t[..c + 1][k] == s[..c + 1][k];
      }
    }
    IdentEndIs(t, 1, o);
    IndexFromIs(t, ')', o + 1, c);
  }

  /**
   * Where a match of the pattern that starts at index 0 of `s` ends, if
   * there is one: the name and `(`; lazily, up to the first `)`; an optional
   * `.`; all whitespace (line breaks included); and, when `:-` follows, the
   * rest of that line.
   */
  function MatchEnd(s: string): (r: Option<nat>)
    ensures r.Some? ==> ClosedCall(s) && CloseParen(s) < r.value <= |s|
  {
    if !CallStart(s) then None
    else
      var close := CloseParen(s);
      if close == |s| then None
      else
        var afterDot := if close + 1 < |s| && s[close + 1] == '.' then close + 2 else close + 1;
        var ws := SpaceEnd(s, afterDot);
        if ws + 1 < |s| && s[ws] == ':' && s[ws + 1] == '-' then Some(IndexFrom(s, '\n', ws + 2))
        else Some(ws)
  }

  /** Index just after the next `\n` at or after `i` (a line start for `^`), or `|s|`. */
  function NextLineStart(s: string, i: nat): (j: nat)
    requires i <= |s|
    ensures i <= j <= |s|
    ensures i < |s| ==> i < j
  {
    var k := IndexFrom(s, '\n', i);
    if k == |s| then |s| else k + 1
  }

  /**
   * `re.findall` of the pattern on `s`, which begins at a line start: `^`
   * matches only at index 0 and just after a `\n`, and the scan resumes where
   * the previous match ended.
   */
  function Matches(s: string): (r: seq<string>)
    ensures forall m :: m in r ==> ClosedCall(m)
    decreases |s|
  {
    if s == [] then []
    else
      var m := MatchEnd(s);
      if m.Some? then
        var n := m.value;
        var next := if s[n - 1] == '\n' then n else NextLineStart(s, n);
        CallPrefix(s, s[..n]);
        [s[..n]] + Matches(s[next..])
      else
        Matches(s[NextLineStart(s, 0)..])
  }

  // ---------------------------------------------------------------------------
  // _extract_prolog
  // ---------------------------------------------------------------------------

  /** `line.strip()`, with `.` appended unless it already ends with one. */
  function Finish(m: string): (c: string)
    requires ClosedCall(m)
    ensures IsStripped(c) && EndsWith(c, '.') && ClosedCall(c)
  {
    var t := Strip(m);
    KeepsCall(m);
    var c := if EndsWith(t, '.') then t else t + ".";
    assert c[..CloseParen(m) + 1] == t[..CloseParen(m) + 1];
    CallPrefix(m, c);
    c
  }

  /** Stripping a closed call keeps everything up to its `)`. */
  lemma KeepsCall(m: string)
    requires ClosedCall(m)
    ensures CloseParen(m) < |Strip(m)| && Strip(m)[..CloseParen(m) + 1] == m[..CloseParen(m) + 1]
  {
    var c := CloseParen(m);
    LStripIdle(m);
    RStripPrefix(m);
    var r := RStrip(m);
    assert r[..c + 1] == m[..c + 1];
  }

  function FinishAll(ms: seq<string>): (r: seq<string>)
    requires forall m :: m in ms ==> ClosedCall(m)
    ensures |r| == |ms|
    ensures forall i :: 0 <= i < |r| ==> r[i] == Finish(ms[i])
  {
    if ms == [] then [] else [Finish(ms[0])] + FinishAll(ms[1..])
  }

  /**
   * `_extract_prolog(text)`: every clause it returns is stripped, ends with
   * `.`, and starts with a lowercase name, `(`, and later a `)`.
   */
  function Extract(text: string): (r: seq<string>)
    ensures forall c :: c in r ==> IsStripped(c) && EndsWith(c, '.') && ClosedCall(c)
  {
    FinishAll(Matches(text))
  }

  // ---------------------------------------------------------------------------
  // What the extractor keeps and drops
  // ---------------------------------------------------------------------------

  /** No line of `s` begins with a lowercase letter, so `^[a-z]` matches nowhere. */
  predicate NoLowerLineStart(s: string) {
    (s == [] || !IsLower(s[0])) && forall k :: 0 <= k < |s| - 1 && s[k] == '\n' ==> !IsLower(s[k + 1])
  }

  /** Text to put after the clauses: no line starts with a lowercase letter, and its first character ends a run of whitespace without starting `:-`. */
  predicate Prose(q: string) {
    NoLowerLineStart(q) && (q == [] || (!IsSpace(q[0]) && q[0] != ':'))
  }

  /** A fact on one line: `name(args).`, with no `)` inside the arguments. */
  predicate FactLine(c: string) {
    NoLineBreak(c) && ClosedCall(c) && CloseParen(c) == |c| - 2 && c[|c| - 1] == '.'
  }

  /** A rule on one line: `name(args)`, optional whitespace, `:-`, a body, and a closing `.`. */
  predicate RuleLine(c: string) {
    NoLineBreak(c) && ClosedCall(c) && EndsWith(c, '.')
    && var ws := SpaceEnd(c, CloseParen(c) + 1); ws + 1 < |c| && c[ws] == ':' && c[ws + 1] == '-'
  }

  predicate ClauseLine(c: string) { FactLine(c) || RuleLine(c) }

  /** Prose and markdown lines (none starting with a lowercase letter) yield no clause. */
  lemma {:induction false} ProseYieldsNothing(s: string)
    requires NoLowerLineStart(s)
    ensures Matches(s) == [] && Extract(s) == []
    decreases |s|
  {
    if s != [] {
      assert MatchEnd(s).None?;
      var j := NextLineStart(s, 0);
      var t := s[j..];
      forall k | 0 <= k < |t| - 1 && t[k] == '\n' ensures !IsLower(t[k + 1]) {
        assert s[j + k] == '\n' && t[k + 1] == s[j + k + 1];
      }
      if t != [] {
        assert s[j - 1] == '\n' && t[0] == s[j - 1 + 1];
      }
      ProseYieldsNothing(t);
    }
  }

  /** Lines before the clauses that do not start with a lowercase letter are skipped. */
  lemma {:induction false} ProsePrefix(p: string, s: string)
    requires NoLowerLineStart(p)
    ensures Matches(p + "\n" + s) == Matches(s)
    decreases |p|
  {
    var u := p + "\n" + s;
    assert u[|p|] == '\n';
    assert u[0] == if p == [] then '\n' else p[0];
    assert MatchEnd(u).None?;
    var k := IndexFrom(u, '\n', 0);
    assert k <= |p|;
    if k == |p| {
      assert u[k + 1..] == s;
    } else {
      assert p[k] == '\n';
      var p' := p[k + 1..];
      assert u[k + 1..] == p' + "\n" + s;
      forall i | 0 <= i < |p'| - 1 && p'[i] == '\n' ensures !IsLower(p'[i + 1]) {
        assert p[k + 1 + i] == '\n' && p'[i + 1] == p[k + 1 + i + 1];
      }
      if p' != [] {
        assert p'[0] == p[k + 1];
      }
      ProsePrefix(p', s);
    }
  }

  /** What may follow a clause line: nothing, or a line break and a line that does not extend the clause. */
  predicate Follows(r: string) {
    r == [] || (r[0] == '\n' && (|r| == 1 || (!IsSpace(r[1]) && r[1] != ':')))
  }

  /** `Matches` unfolded once at a match. */
  lemma MatchesAt(s: string, n: nat)
    requires s != [] && MatchEnd(s) == Some(n)
    ensures Matches(s) == [s[..n]] + Matches(s[(if s[n - 1] == '\n' then n else NextLineStart(s, n))..])
  {
  }

  /** The scan reads a clause line as one match and resumes at the next line. */
  lemma ClauseStep(x: string, r: string)
    requires ClauseLine(x) && Follows(r)
    ensures Matches(x + r) == [if FactLine(x) && r != [] then x + "\n" else x] + Matches(if r == [] then [] else r[1..])
  {
    if r == [] {
      assert x + r == x;
      ClauseAlone(x);
      assert Matches([]) == [];
      assert [x] + [] == [x];
    } else if FactLine(x) {
      FactThen(x, r);
    } else {
      RuleThen(x, r);
    }
  }

  lemma ClauseAlone(x: string)
    requires ClauseLine(x)
    ensures Matches(x) == [x]
  {
    if FactLine(x) {
      FactMatchEnd(x);
    } else {
      RuleMatchEndAlone(x);
    }
    IndexFromIs(x, '\n', |x|, |x|);
    assert x[..|x|] == x && x[|x|..] == [];
    MatchesStep(x, |x|, |x|, x, []);
    assert Matches([]) == [];
  }

  lemma FactMatchEnd(x: string)
    requires FactLine(x)
    ensures MatchEnd(x) == Some(|x|)
  {
    SpaceEndIs(x, |x|, |x|);
  }

  lemma RuleMatchEndAlone(x: string)
    requires RuleLine(x) && !FactLine(x)
    ensures MatchEnd(x) == Some(|x|)
  {
    var wx := SpaceEnd(x, CloseParen(x) + 1);
    IndexFromIs(x, '\n', wx + 2, |x|);
    MatchEndAtNeck(x, wx);
  }

  lemma FactThen(x: string, r: string)
    requires FactLine(x) && Follows(r) && r != []
    ensures Matches(x + r) == [x + "\n"] + Matches(r[1..])
  {
    var s := x + r;
    var close := CloseParen(x);
    assert s[..close + 1] == x[..close + 1];
    CallPrefix(x, s);
    assert s[close + 1] == '.';
    var ws := |x| + 1;
    SpaceEndIs(s, |x|, ws);
    assert MatchEnd(s) == Some(ws);
    MatchesAt(s, ws);
    assert s[ws - 1] == '\n';
    assert s[..ws] == x + "\n";
    assert s[ws..] == r[1..];
  }

  lemma RuleThen(x: string, r: string)
    requires RuleLine(x) && !FactLine(x) && Follows(r) && r != []
    ensures Matches(x + r) == [x] + Matches(r[1..])
  {
    var s := x + r;
    RuleMatchEnd(x, r);
    ResumeAtBreak(x, r);
    AppendParts(x, r, 1);
    MatchesStep(s, |x|, |x| + 1, x, r[1..]);
  }

  /** `Matches` unfolded once at a match, with the match and the rest named. */
  lemma MatchesStep(s: string, n: nat, next: nat, head: string, tail: string)
    requires s != [] && MatchEnd(s) == Some(n)
    requires next == (if s[n - 1] == '\n' then n else NextLineStart(s, n))
    requires head == s[..n] && tail == s[next..]
    ensures Matches(s) == [head] + Matches(tail)
  {
    MatchesAt(s, n);
  }

  /** After a match that ends just before a `\n`, the scan resumes after it. */
  lemma ResumeAtBreak(x: string, r: string)
    requires x != [] && x[|x| - 1] != '\n' && r != [] && r[0] == '\n'
    ensures var s := x + r;
      (if s[|x| - 1] == '\n' then |x| else NextLineStart(s, |x|)) == |x| + 1
  {
    var s := x + r;
    assert s[|x| - 1] == x[|x| - 1] && s[|x|] == '\n';
    IndexFromIs(s, '\n', |x|, |x|);
  }

  lemma RuleMatchEnd(x: string, r: string)
    requires RuleLine(x) && r != [] && r[0] == '\n'
    ensures MatchEnd(x + r) == Some(|x|)
  {
    var s := x + r;
    var close := CloseParen(x);
    assert forall k :: 0 <= k < |x| ==> s[k] == x[k];
    assert s[..close + 1] == x[..close + 1];
    CallPrefix(x, s);
    var wx := SpaceEnd(x, close + 1);
    assert x[close + 1] != '.';
    SpaceEndIs(s, close + 1, wx);
    assert forall k :: wx + 2 <= k < |x| ==> s[k] != '\n';
    IndexFromIs(s, '\n', wx + 2, |x|);
    MatchEndAtNeck(s, wx);
  }

  /** A match whose `)` is followed by whitespace and `:-` runs to the end of that line. */
  lemma MatchEndAtNeck(s: string, wx: nat)
    requires ClosedCall(s) && CloseParen(s) + 1 < |s| && s[CloseParen(s) + 1] != '.'
    requires wx == SpaceEnd(s, CloseParen(s) + 1) && wx + 1 < |s| && s[wx] == ':' && s[wx + 1] == '-'
    ensures MatchEnd(s) == Some(IndexFrom(s, '\n', wx + 2))
  {
  }

  lemma FinishClause(x: string)
    requires ClauseLine(x)
    ensures ClosedCall(x + "\n")
    ensures Finish(x) == x && Finish(x + "\n") == x
  {
    StripOfStripped(x);
    FinishNewline(x);
  }

  /** A clause line with its line break finishes as the line. */
  lemma FinishNewline(x: string)
    requires ClauseLine(x)
    ensures ClosedCall(x + "\n") && Finish(x + "\n") == x
  {
    var close := CloseParen(x);
    assert (x + "\n")[..close + 1] == x[..close + 1];
    CallPrefix(x, x + "\n");
    StripNewline(x);
  }

  /** `strip()` drops the line break after a stripped text. */
  lemma StripNewline(x: string)
    requires x != [] && IsStripped(x)
    ensures Strip(x + "\n") == x
  {
    LStripIdle(x + "\n");
    assert (x + "\n")[..|x|] == x;
    SpaceStartIs(x + "\n", |x|);
  }

  /**
   * Clause lines joined by line breaks, with or without prose after them,
   * come back from the extractor exactly as written.
   */
  lemma {:induction false} ClausesRoundTrip(xs: seq<string>, t: string)
    requires forall x :: x in xs ==> ClauseLine(x)
    requires t == [] || (t[0] == '\n' && Prose(t[1..]))
    ensures FinishAll(Matches(Join(xs, "\n") + t)) == xs
  {
    if xs == [] {
      assert Join(xs, "\n") + t == t;
      TrailerYieldsNothing(t);
    } else if |xs| == 1 {
      assert Join(xs, "\n") + t == xs[0] + t;
      LastClause(xs[0], t);
    } else {
      var rest := xs[1..];
      ClausesRoundTrip(rest, t);
      NextClause(xs[0], rest, t);
      assert xs == [xs[0]] + rest;
    }
  }

  lemma TrailerYieldsNothing(t: string)
    requires t == [] || (t[0] == '\n' && Prose(t[1..]))
    ensures Matches(t) == [] && Matches(if t == [] then [] else t[1..]) == []
  {
    if t != [] {
      assert t == "" + "\n" + t[1..];
      ProsePrefix("", t[1..]);
      ProseYieldsNothing(t[1..]);
    }
  }

  lemma LastClause(x: string, t: string)
    requires ClauseLine(x)
    requires t == [] || (t[0] == '\n' && Prose(t[1..]))
    ensures FinishAll(Matches(x + t)) == [x]
  {
    var m := if FactLine(x) && t != [] then x + "\n" else x;
    assert Matches(x + t) == [m] by {
      ClauseStep(x, t);
      TrailerYieldsNothing(t);
    }
    FinishClause(x);
    assert Finish(m) == x;
    FinishAllCons(m, []);
    assert [m] + [] == [m];
  }

  lemma NextClause(x: string, rest: seq<string>, t: string)
    requires ClauseLine(x) && rest != [] && forall y :: y in rest ==> ClauseLine(y)
    ensures Join([x] + rest, "\n") + t == x + ("\n" + (Join(rest, "\n") + t))
    ensures FinishAll(Matches(Join([x] + rest, "\n") + t)) == [x] + FinishAll(Matches(Join(rest, "\n") + t))
  {
    var r := "\n" + (Join(rest, "\n") + t);
    JoinConsAppend(x, rest, t);
    FollowsJoin(rest, t);
    ClauseFinished(x, r);
  }

  lemma JoinConsAppend(x: string, rest: seq<string>, t: string)
    requires rest != []
    ensures Join([x] + rest, "\n") + t == x + ("\n" + (Join(rest, "\n") + t))
  {
    assert ([x] + rest)[1..] == rest;
    assert Join([x] + rest, "\n") == x + "\n" + Join(rest, "\n");
  }

  lemma FollowsJoin(rest: seq<string>, t: string)
    requires rest != [] && forall y :: y in rest ==> ClauseLine(y)
    ensures Follows("\n" + (Join(rest, "\n") + t))
  {
    var r := "\n" + (Join(rest, "\n") + t);
    assert rest[0] in rest;
    JoinHead(rest);
    assert r[1] == rest[0][0];
  }

  /** A clause line followed by a line break comes out of the extractor as itself. */
  lemma ClauseFinished(x: string, r: string)
    requires ClauseLine(x) && Follows(r) && r != []
    ensures FinishAll(Matches(x + r)) == [x] + FinishAll(Matches(r[1..]))
  {
    var m := if FactLine(x) then x + "\n" else x;
    ClauseStep(x, r);
    FinishClause(x);
    FinishAllCons(m, Matches(r[1..]));
  }

  lemma FinishAllCons(m: string, ms: seq<string>)
    requires ClosedCall(m) && forall y :: y in ms ==> ClosedCall(y)
    ensures FinishAll([m] + ms) == [Finish(m)] + FinishAll(ms)
  {
    assert ([m] + ms)[1..] == ms;
  }

  lemma JoinHead(xs: seq<string>)
    requires xs != [] && xs[0] != []
    ensures Join(xs, "\n") != [] && Join(xs, "\n")[0] == xs[0][0]
  {
  }

  /**
   * Well-formed clause lines surrounded by prose or markdown lines (none
   * starting with a lowercase letter) are extracted unchanged and in order.
   */
  lemma ExtractAmidProse(p: string, xs: seq<string>, q: string)
    requires NoLowerLineStart(p) && Prose(q)
    requires forall x :: x in xs ==> ClauseLine(x)
    ensures Extract(Join(xs, "\n")) == xs
    ensures Extract(p + "\n" + Join(xs, "\n") + "\n" + q) == xs
  {
    var j := Join(xs, "\n");
    ClausesRoundTrip(xs, []);
    assert j + [] == j;
    ClausesRoundTrip(xs, "\n" + q);
    AroundNewlines(p, j, q);
    ProsePrefix(p, j + ("\n" + q));
  }

  lemma AroundNewlines(p: string, j: string, q: string)
    ensures p + "\n" + j + "\n" + q == p + "\n" + (j + ("\n" + q))
  {
  }

  /** The lazy `(?:.|\n)*?\)` stops at the first `)`: a nested term is cut short. */
  lemma NestedTermCut(s: string)
    requires s == "p(f(a))."
    ensures Extract(s) == ["p(f(a)."]
  {
    var m := NestedMatch(s);
    NestedFinish(m);
    FinishAllCons(m, []);
    assert [m] + [] == [m];
  }

  lemma NestedMatch(s: string) returns (m: string)
    requires s == "p(f(a))."
    ensures m == "p(f(a)" && Matches(s) == [m]
  {
    IdentEndIs(s, 1, 1);
    IndexFromIs(s, ')', 2, 5);
    SpaceEndIs(s, 6, 6);
    assert MatchEnd(s) == Some(6);
    MatchesAt(s, 6);
    IndexFromIs(s, '\n', 6, 8);
    m := s[..6];
  }

  lemma NestedFinish(m: string)
    requires m == "p(f(a)"
    ensures ClosedCall(m) && Finish(m) == "p(f(a)."
  {
    IdentEndIs(m, 1, 1);
    IndexFromIs(m, ')', 2, 5);
    StripOfStripped(m);
  }
}
