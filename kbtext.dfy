/**
 * The knowledge-base text update every version of the assert path shares:
 * filter the new clauses against what the text already holds, then append
 * the survivors as `(kb + "\n" + "\n".join(added)).strip()`.
 */
module KbText {
  import opened PyStr

  /** `[c for c in clauses if c not in present]`: input order and repeats within `clauses` are kept. */
  function NotIn(clauses: seq<string>, present: set<string>): (r: seq<string>)
    ensures |r| <= |clauses|
    ensures forall c :: c in r <==> c in clauses && c !in present
  {
    if clauses == [] then []
    else (if clauses[0] in present then [] else [clauses[0]]) + NotIn(clauses[1..], present)
  }

  /** The filter works clause by clause: filtering `a + b` is filtering `a`, then `b`, so order is kept. */
  lemma {:induction false} NotInConcat(a: seq<string>, b: seq<string>, present: set<string>)
    ensures NotIn(a + b, present) == NotIn(a, present) + NotIn(b, present)
    decreases |a|
  {
    if a == [] {
      assert a + b == b;
    } else {
      assert (a + b)[0] == a[0] && (a + b)[1..] == a[1..] + b;
      NotInConcat(a[1..], b, present);
      var head := if a[0] in present then [] else [a[0]];
      assert NotIn(a + b, present) == head + (NotIn(a[1..], present) + NotIn(b, present));
    }
  }

  /** A clause that is not present is kept as often as the batch holds it: repeats within one batch survive. */
  lemma {:induction false} NotInCounts(clauses: seq<string>, present: set<string>, c: string)
    requires c !in present
    ensures multiset(NotIn(clauses, present))[c] == multiset(clauses)[c]
    decreases |clauses|
  {
    if clauses != [] {
      NotInCounts(clauses[1..], present, c);
      assert clauses == [clauses[0]] + clauses[1..];
    }
  }

  /** One clause is kept exactly when it is not present. */
  lemma NotInOne(c: string, present: set<string>)
    ensures NotIn([c], present) == if c in present then [] else [c]
  {
    assert [c][1..] == [];
  }

  /** `set(kb.splitlines())` */
  function RawLines(kb: string): set<string> {
    set l | l in SplitLines(kb)
  }

  /** The text after an assert: untouched when nothing was added. */
  function Appended(kb: string, added: seq<string>): string {
    if added == [] then kb else Strip(kb + "\n" + Join(added, "\n"))
  }

  /** A clause that sits on one line of the knowledge base as it is. */
  predicate OneLine(c: string) { c != [] && IsStripped(c) && NoLineBreak(c) }

  /**
   * Appending never reorders or rewrites what was there: the new text is the
   * old one with its leading whitespace dropped, a newline, and the added clauses.
   */
  lemma AppendedShape(kb: string, added: seq<string>)
    requires added != [] && forall c :: c in added ==> OneLine(c)
    ensures Appended(kb, added) == (if Blank(kb) then Join(added, "\n") else LStrip(kb) + "\n" + Join(added, "\n"))
  {
    var j := Join(added, "\n");
    JoinEnds(added, "\n");
    assert j != [] && IsStripped(j);
    if Blank(kb) {
      BlankNewline(kb);
      StripAfterBlank(kb + "\n", j);
    } else {
      NewlineLast(j);
      NewlineAssoc(kb, j);
      NewlineAssoc(LStrip(kb), j);
      StripAfterText(kb, "\n" + j);
    }
  }

  lemma NewlineLast(j: string)
    requires j != []
    ensures ("\n" + j)[|"\n" + j| - 1] == j[|j| - 1]
  {
  }

  lemma NewlineAssoc(a: string, j: string)
    ensures a + "\n" + j == a + ("\n" + j)
  {
  }

  lemma BlankNewline(kb: string)
    requires Blank(kb)
    ensures Blank(kb + "\n")
  {
  }

  lemma StripAfterBlank(a: string, j: string)
    requires Blank(a) && j != [] && IsStripped(j)
    ensures Strip(a + j) == j
  {
    LStripConcat(a, j);
    LStripIdle(j);
    RStripIdle(j);
  }

  lemma StripAfterText(a: string, b: string)
    requires !Blank(a) && b != [] && !IsSpace(b[|b| - 1])
    ensures Strip(a + b) == LStrip(a) + b
  {
    LStripConcat(a, b);
    RStripIdle(LStrip(a) + b);
  }

  /**
   * After a non-empty append, every added clause is a line of the new text,
   * every line of the old text that starts with a non-space character is
   * still a line, and every non-blank stripped line is still a stripped line.
   */
  lemma AppendedLines(kb: string, added: seq<string>)
    requires added != [] && forall c :: c in added ==> OneLine(c)
    ensures forall c :: c in added ==> c in SplitLines(Appended(kb, added)) && c in StrippedLines(Appended(kb, added))
    ensures forall l :: l in SplitLines(kb) && l != [] && !IsSpace(l[0]) ==> l in SplitLines(Appended(kb, added))
    ensures forall l :: l in SplitLines(kb) && Strip(l) != [] ==> Strip(l) in StrippedLines(Appended(kb, added))
  {
    var j := Join(added, "\n");
    var s := Appended(kb, added);
    AppendedShape(kb, added);
    SplitLinesJoin(added);
    LStripKeepsLines(kb);
    forall c | c in added ensures Strip(c) == c { StripOfStripped(c); }
    if Blank(kb) {
      assert LStrip(kb) == [];
      assert SplitLines(s) == added;
    } else {
      var p := LStrip(kb) + "\n";
      assert s == p + j;
      SplitLinesConcat(p, j);
      SplitLinesAppendNewline(LStrip(kb));
      assert forall l :: l in SplitLines(LStrip(kb)) ==> l in SplitLines(s);
      assert forall c :: c in added ==> c in SplitLines(s);
    }
  }

  /**
   * v5 and v8 (`added = [f for f in new_facts if f not in set(kb.splitlines())]`
   * and the append): what is added, and the text after it. Once the
   * one-line clauses are in, each of them is a line of the text.
   */
  function AddRaw(kb: string, clauses: seq<string>): (r: (seq<string>, string))
    ensures r.0 == NotIn(clauses, RawLines(kb)) && r.1 == Appended(kb, r.0)
    ensures forall c :: c in r.0 <==> c in clauses && c !in RawLines(kb)
    ensures r.0 == [] ==> r.1 == kb
    ensures r.0 != [] && (forall c :: c in clauses ==> OneLine(c)) ==>
      r.1 == (if Blank(kb) then Join(r.0, "\n") else LStrip(kb) + "\n" + Join(r.0, "\n"))
    ensures (forall c :: c in clauses ==> OneLine(c)) ==> forall c :: c in clauses ==> c in RawLines(r.1)
  {
    var added := NotIn(clauses, RawLines(kb));
    if added != [] && forall c :: c in clauses ==> OneLine(c) then
      AppendedLines(kb, added);
      AppendedShape(kb, added);
      (added, Appended(kb, added))
    else (added, Appended(kb, added))
  }

  /**
   * v11: the same, against the stripped lines of the text
   * (`c not in (line.strip() for line in kb.splitlines())`).
   */
  function AddStripped(kb: string, clauses: seq<string>): (r: (seq<string>, string))
    ensures r.0 == NotIn(clauses, StrippedLines(kb)) && r.1 == Appended(kb, r.0)
    ensures forall c :: c in r.0 <==> c in clauses && c !in StrippedLines(kb)
    ensures r.0 == [] ==> r.1 == kb
    ensures r.0 != [] && (forall c :: c in clauses ==> OneLine(c)) ==>
      r.1 == (if Blank(kb) then Join(r.0, "\n") else LStrip(kb) + "\n" + Join(r.0, "\n"))
    ensures (forall c :: c in clauses ==> OneLine(c)) ==> forall c :: c in clauses ==> c in StrippedLines(r.1)
  {
    var added := NotIn(clauses, StrippedLines(kb));
    if added != [] && forall c :: c in clauses ==> OneLine(c) then
      AppendedLines(kb, added);
      assert forall c :: c in clauses && c !in added ==> c in StrippedLines(kb);
      KeptStripped(kb, added, clauses);
      AppendedShape(kb, added);
      (added, Appended(kb, added))
    else (added, Appended(kb, added))
  }

  lemma KeptStripped(kb: string, added: seq<string>, clauses: seq<string>)
    requires added != [] && forall c :: c in added ==> OneLine(c)
    requires forall c :: c in clauses ==> OneLine(c)
    ensures forall c :: c in clauses && c in StrippedLines(kb) ==> c in StrippedLines(Appended(kb, added))
  {
    AppendedLines(kb, added);
    forall c | c in clauses && c in StrippedLines(kb) ensures c in StrippedLines(Appended(kb, added)) {
      var l :| l in SplitLines(kb) && Strip(l) == c;
    }
  }

  /** Asserting the same one-line clauses twice (raw-line comparison): the second time adds nothing and changes nothing. */
  lemma AddRawTwice(kb: string, clauses: seq<string>)
    requires forall c :: c in clauses ==> OneLine(c)
    ensures AddRaw(AddRaw(kb, clauses).1, clauses) == ([], AddRaw(kb, clauses).1)
  {
    NoneLeft(clauses, RawLines(AddRaw(kb, clauses).1));
  }

  /** Asserting the same one-line clauses twice (stripped-line comparison): the second time adds nothing and changes nothing. */
  lemma AddStrippedTwice(kb: string, clauses: seq<string>)
    requires forall c :: c in clauses ==> OneLine(c)
    ensures AddStripped(AddStripped(kb, clauses).1, clauses) == ([], AddStripped(kb, clauses).1)
  {
    NoneLeft(clauses, StrippedLines(AddStripped(kb, clauses).1));
  }

  lemma NoneLeft(clauses: seq<string>, present: set<string>)
    ensures (forall c :: c in clauses ==> c in present) ==> NotIn(clauses, present) == []
  {
    var r := NotIn(clauses, present);
    if r != [] { assert r[0] in r; }
  }
}
