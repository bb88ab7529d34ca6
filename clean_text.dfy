/**
 * Clause extraction of v5 and v8 (`MCRService._extract_prolog`): split the
 * reply on `\n`, strip every piece, drop blank pieces and `%` comments, and
 * append `.` to every kept line that does not already end with one of the
 * accepted terminators (`.` in v5; `.` or `:` in v8).
 */
module CleanText {
  import opened PyStr
  import opened ClauseShape

  /** A line the cleaning step can hand on: non-empty, stripped, not a comment, one `\n`-line. */
  predicate CleanLine(l: string) { !Skipped(l) && IsStripped(l) && '\n' !in l }

  /** `[p.strip() for p in parts if p.strip() and not p.strip().startswith('%')]` */
  function Cleaned(parts: seq<string>): (r: seq<string>)
    ensures |r| <= |parts|
    ensures forall l :: l in r ==> !Skipped(l) && IsStripped(l)
  {
    if parts == [] then []
    else
      var l := Strip(parts[0]);
      (if !Skipped(l) then [l] else []) + Cleaned(parts[1..])
  }

  /** Cleaning adds no character: one absent from every piece is absent from every line. */
  lemma {:induction false} CleanedOut(parts: seq<string>, c: char)
    requires forall p :: p in parts ==> c !in p
    ensures forall l :: l in Cleaned(parts) ==> c !in l
  {
    if parts != [] {
      assert parts[0] in parts;
      StripKeepsOut(parts[0], c);
      assert forall p :: p in parts[1..] ==> p in parts;
      CleanedOut(parts[1..], c);
    }
  }

  /** The `\n`-separated lines of `text` that are neither blank nor comments, stripped. */
  function CleanLines(text: string): (r: seq<string>)
    ensures |r| <= |Split(text, '\n')|
    ensures forall l :: l in r ==> CleanLine(l)
  {
    CleanedOut(Split(text, '\n'), '\n');
    Cleaned(Split(text, '\n'))
  }

  /** A kept line as it is when it ends with one of `ends`, otherwise with `.` appended. */
  function Terminate(l: string, ends: set<char>): (r: string)
    requires CleanLine(l) && '.' in ends
    ensures CleanLine(r) && r[|r| - 1] in ends
    ensures r == l || r == l + "."
  {
    if l[|l| - 1] in ends then l else l + "."
  }

  /** `_extract_prolog(text)` with the terminators `ends`. */
  function ExtractEnding(text: string, ends: set<char>): (r: seq<string>)
    requires '.' in ends
    ensures |r| <= |Split(text, '\n')|
    ensures forall x :: x in r ==> CleanLine(x) && x[|x| - 1] in ends
  {
    TerminateAll(CleanLines(text), ends)
  }

  function TerminateAll(ls: seq<string>, ends: set<char>): (r: seq<string>)
    requires '.' in ends && forall l :: l in ls ==> CleanLine(l)
    ensures |r| == |ls|
    ensures forall i :: 0 <= i < |r| ==> r[i] == Terminate(ls[i], ends)
  {
    if ls == [] then [] else [Terminate(ls[0], ends)] + TerminateAll(ls[1..], ends)
  }

  /**
   * Clean, terminated lines joined with `\n` come back out unchanged: the
   * extractor neither drops, reorders, merges nor rewrites them.
   */
  lemma JoinedLines(xs: seq<string>, ends: set<char>)
    requires '.' in ends
    requires forall x :: x in xs ==> CleanLine(x) && x[|x| - 1] in ends
    ensures ExtractEnding(Join(xs, "\n"), ends) == xs
  {
    if xs == [] {
      NothingInEmpty(Join(xs, "\n"), ends);
    } else {
      SplitJoin(xs, '\n');
      assert ['\n'] == "\n";
      CleanedIdle(xs);
      TerminateAllIdle(xs, ends);
    }
  }

  lemma NothingInEmpty(text: string, ends: set<char>)
    requires text == [] && '.' in ends
    ensures ExtractEnding(text, ends) == []
  {
    assert Split(text, '\n') == [""];
  }

  /** Lines that already end with a terminator are kept as they are. */
  lemma {:induction false} TerminateAllIdle(xs: seq<string>, ends: set<char>)
    requires '.' in ends
    requires forall x :: x in xs ==> CleanLine(x) && x[|x| - 1] in ends
    ensures TerminateAll(xs, ends) == xs
  {
    if xs != [] {
      assert xs[0] in xs;
      assert forall x :: x in xs[1..] ==> x in xs;
      TerminateAllIdle(xs[1..], ends);
      assert xs == [xs[0]] + xs[1..];
    }
  }

  /** Clean lines pass the cleaning step untouched. */
  lemma {:induction false} CleanedIdle(xs: seq<string>)
    requires forall x :: x in xs ==> CleanLine(x)
    ensures Cleaned(xs) == xs
  {
    if xs != [] {
      assert xs[0] in xs;
      StripOfStripped(xs[0]);
      assert forall x :: x in xs[1..] ==> x in xs;
      CleanedIdle(xs[1..]);
      assert xs == [xs[0]] + xs[1..];
    }
  }

  /** Extracting again from the extracted clauses, one per line, changes nothing. */
  lemma Idempotent(text: string, ends: set<char>)
    requires '.' in ends
    ensures ExtractEnding(Join(ExtractEnding(text, ends), "\n"), ends) == ExtractEnding(text, ends)
  {
    JoinedLines(ExtractEnding(text, ends), ends);
  }

  /**
   * One line on its own: nothing when it is blank or a comment once
   * stripped, otherwise the stripped line, terminated.
   */
  lemma OneLine(l: string, ends: set<char>)
    requires '.' in ends && '\n' !in l
    ensures ExtractEnding(l, ends) == (if !Skipped(Strip(l)) then [Terminate(Strip(l), ends)] else [])
  {
    NoneFound(l, '\n');
    assert Split(l, '\n') == [l];
    assert [l][1..] == [];
    StripKeepsOut(l, '\n');
  }

  /**
   * The extractor works line by line and keeps the order of the lines: the
   * clauses of a first line come before those of the rest of the text.
   */
  lemma LineByLine(a: string, b: string, ends: set<char>)
    requires '.' in ends && '\n' !in a
    ensures ExtractEnding(a + "\n" + b, ends) == ExtractEnding(a, ends) + ExtractEnding(b, ends)
  {
    var s := a + "\n" + b;
    NoneFound(a, '\n');
    assert s[..|a|] == a && s[|a|] == '\n' && s[|a| + 1..] == b;
    assert IndexOf(s, '\n') == |a|;
    assert Split(s, '\n') == [a] + Split(b, '\n');
    assert Split(a, '\n') == [a];
    assert ([a] + Split(b, '\n'))[1..] == Split(b, '\n');
    assert [a][1..] == [];
    assert Cleaned(Split(s, '\n')) == Cleaned([a]) + Cleaned(Split(b, '\n'));
    CleanedOut(Split(a, '\n'), '\n');
    CleanedOut(Split(b, '\n'), '\n');
    TerminateAllConcat(Cleaned([a]), Cleaned(Split(b, '\n')), ends);
  }

  lemma TerminateAllConcat(x: seq<string>, y: seq<string>, ends: set<char>)
    requires '.' in ends && (forall l :: l in x ==> CleanLine(l)) && (forall l :: l in y ==> CleanLine(l))
    ensures TerminateAll(x + y, ends) == TerminateAll(x, ends) + TerminateAll(y, ends)
  {
    var r := TerminateAll(x + y, ends);
    var t := TerminateAll(x, ends) + TerminateAll(y, ends);
    assert |r| == |t|;
    forall i | 0 <= i < |r| ensures r[i] == t[i] {
      if i < |x| { assert (x + y)[i] == x[i]; } else { assert (x + y)[i] == y[i - |x|]; }
    }
  }
}
