/**
 * Schema extraction of v8 (`MCRService._get_kb_schema`): for every line of
 * the knowledge base that is neither blank nor a `%` comment and that starts
 * with `[a-z][a-zA-Z0-9_]*\(`, the signature `name/arity`, where the arity is
 * the line's comma count plus one (zero without a `)`), less the commas after
 * the first `:-`; the whole returned sorted and without duplicates.
 */
module V8Schema {
  import opened PyStr
  import opened Sorting
  import opened ClauseShape
  import opened V11Extract

  // ---------------------------------------------------------------------------
  // The signature of one line
  // ---------------------------------------------------------------------------

  /** `re.match(r'([a-z][a-zA-Z0-9_]*)\(', line).group(1)` */
  function CallName(line: string): (r: Option<string>)
    ensures r.Some? <==> CallStart(line)
    ensures r.Some? ==> IsName(r.value) && |r.value| < |line| && line[..|r.value|] == r.value && line[|r.value|] == '('
  {
    if CallStart(line) then Some(line[..IdentEnd(line, 1)]) else None
  }

  /**
   * `line.count(',') + 1 if '(' in line and ')' in line else 0`, less
   * `line.split(':-')[1].count(',')` when `':-' in line`. Nothing keeps it
   * from going below zero.
   */
  function Arity(line: string): int {
    var total := if Contains(line, "(") && Contains(line, ")") then CountChar(line, ',') + 1 else 0;
    if Contains(line, ":-") then total - CountChar(SecondField(line, ":-"), ',') else total
  }

  /** `f"{name}/{arity}"` when the call pattern matches. */
  function Signature(line: string): (r: Option<string>)
    ensures r.Some? <==> CallStart(line)
  {
    var name := CallName(line);
    if name.Some? then Some(name.value + "/" + IntToString(Arity(line))) else None
  }

  /** What one stripped line adds to the schema. */
  function KeptItems(line: string): seq<string> {
    if Skipped(line) || Signature(line).None? then [] else [Signature(line).value]
  }

  /** What one line of `kb.splitlines()` adds, once stripped. */
  function LineItems(raw: string): seq<string> {
    KeptItems(Strip(raw))
  }

  /** The signatures of `lines`, in order, duplicates kept. */
  function LinesItems(lines: seq<string>): seq<string> {
    if lines == [] then [] else LinesItems(lines[..|lines| - 1]) + LineItems(lines[|lines| - 1])
  }

  /** `_get_kb_schema(kb)` */
  function Schema(kb: string): seq<string> {
    Canonical(LinesItems(SplitLines(kb)))
  }

  // ---------------------------------------------------------------------------
  // The loop
  // ---------------------------------------------------------------------------

  /** `_get_kb_schema`: a set filled line by line, the arity adjusted in place, then sorted. */
  method GetKbSchema(kb: string) returns (r: seq<string>)
    ensures r == Schema(kb)
    ensures StrictlySorted(r)
  {
    var predicates: set<string> := {};
    var lines := SplitLines(kb);
    for i := 0 to |lines|
      invariant forall y :: y in predicates <==> y in LinesItems(lines[..i])
    {
      assert lines[..i + 1][..i] == lines[..i];
      var line := Strip(lines[i]);
      assert LinesItems(lines[..i + 1]) == LinesItems(lines[..i]) + KeptItems(line);
      if Skipped(line) {
        continue;
      }
      var signature := LineSignature(line);
      if signature.Some? {
        predicates := predicates + {signature.value};
      }
    }
    assert lines[..|lines|] == lines;
    r := SortedList(predicates);
    SortedUnique(r, Canonical(LinesItems(lines)));
  }

  /** The body of the loop for a line that is not skipped. */
  method LineSignature(line: string) returns (signature: Option<string>)
    ensures signature == Signature(line)
  {
    var name := CallName(line);
    if name.None? {
      return None;
    }
    var arity := if Contains(line, "(") && Contains(line, ")") then CountChar(line, ',') + 1 else 0;
    if Contains(line, ":-") {
      arity := arity - CountChar(SecondField(line, ":-"), ',');
    }
    signature := Some(name.value + "/" + IntToString(arity));
  }

  // ---------------------------------------------------------------------------
  // What the schema holds
  // ---------------------------------------------------------------------------

  lemma {:induction false} LinesItemsMember(lines: seq<string>, y: string)
    ensures y in LinesItems(lines) <==> exists l :: l in lines && y in LineItems(l)
  {
    if lines != [] {
      var init := lines[..|lines| - 1];
      LinesItemsMember(init, y);
      assert forall l :: l in lines <==> l in init || l == lines[|lines| - 1];
    }
  }

  /**
   * The schema is sorted and duplicate-free, and holds `y` exactly when some
   * line of the text, stripped, is neither blank nor a comment, starts with
   * a call and has `y` as its signature: blank lines, comments and lines
   * that do not open a call contribute nothing.
   */
  lemma SchemaMembers(kb: string, y: string)
    ensures StrictlySorted(Schema(kb))
    ensures y in Schema(kb) <==>
      exists l :: l in SplitLines(kb) && !Skipped(Strip(l)) && Signature(Strip(l)) == Some(y)
  {
    LinesItemsMember(SplitLines(kb), y);
  }

  // ---------------------------------------------------------------------------
  // The arity of well-formed facts and rules
  // ---------------------------------------------------------------------------

  /** `name(args)` then `rest`, with `rest` free of `(`. */
  lemma CallHead(name: string, j: string, rest: string, line: string)
    requires IsName(name) && j != [] && IsIdentChar(j[0])
    requires line == name + "(" + j + rest
    ensures CallName(line) == Some(name)
  {
    assert line == name + ("(" + j + rest);
    NameThenParen(name, "(" + j + rest, line);
  }

  /** The commas of `name(j)` followed by `tail` are those of `j` and `tail`, and the line holds `(` and `)`. */
  lemma HeadCommas(name: string, j: string, tail: string, line: string)
    requires IsName(name) && line == name + "(" + j + ")" + tail
    ensures CountChar(line, ',') == CountChar(j, ',') + CountChar(tail, ',')
  {
    var p := name + "(";
    var q := p + j;
    CountCharConcat(q + ")", tail, ',');
    ParenNoComma(q, ")");
    CountCharConcat(p, j, ',');
    ParenNoComma(name, "(");
    NameNoComma(name);
  }

  lemma NameNoComma(name: string)
    requires IsName(name)
    ensures CountChar(name, ',') == 0
  {
    CountCharNone(name, ',');
  }

  lemma ParenNoComma(p: string, paren: string)
    requires paren == "(" || paren == ")"
    ensures CountChar(p + paren, ',') == CountChar(p, ',')
  {
    CountCharConcat(p, paren, ',');
    CountCharNone(paren, ',');
  }

  /** `'(' in line and ')' in line` for a line of the form `name(j)tail`. */
  lemma HasParens(name: string, j: string, tail: string, line: string)
    requires line == name + "(" + j + ")" + tail
    ensures Contains(line, "(") && Contains(line, ")")
  {
    assert line[|name|..|name| + 1] == "(";
    assert OccursAt(line, "(", |name|);
    assert line[|name| + 1 + |j|..|name| + 2 + |j|] == ")";
    assert OccursAt(line, ")", |name| + 1 + |j|);
  }

  /** A fact `name(a1, ..., an).` (or any tail without commas or `:`) gets `name/n`. */
  lemma FactSignature(name: string, args: seq<string>, sep: string, tail: string)
    requires IsName(name) && |args| >= 1 && (forall a :: a in args ==> IsWord(a)) && IsArgSep(sep)
    requires forall k :: 0 <= k < |tail| ==> tail[k] != ',' && tail[k] != ':'
    ensures Signature(name + "(" + Join(args, sep) + ")" + tail) == Some(name + "/" + IntToString(|args|))
  {
    var j := Join(args, sep);
    var line := name + "(" + j + ")" + tail;
    ArgsJoin(args, sep);
    CallHead(name, j, ")" + tail, line);
    HeadCommas(name, j, tail, line);
    HasParens(name, j, tail, line);
    CountCharNone(tail, ',');
    NoColon(name, j, tail, line);
    FactArity(line, j, tail);
    SignatureOf(line, name, |args|);
  }

  /** Without `:-`, the arity of a line with both parentheses is its comma count plus one. */
  lemma FactArity(line: string, j: string, tail: string)
    requires Contains(line, "(") && Contains(line, ")") && !Contains(line, ":-")
    requires CountChar(line, ',') == CountChar(j, ',') + CountChar(tail, ',') && CountChar(tail, ',') == 0
    ensures Arity(line) == CountChar(j, ',') + 1
  {
  }

  /** A line built from a name, words, commas, spaces and a tail without `:` has no `:-`. */
  lemma NoColon(name: string, j: string, tail: string, line: string)
    requires IsName(name) && line == name + "(" + j + ")" + tail
    requires forall k :: 0 <= k < |j| ==> IsIdentChar(j[k]) || j[k] == ',' || j[k] == ' '
    requires forall k :: 0 <= k < |tail| ==> tail[k] != ':'
    ensures !Contains(line, ":-")
  {
    assert forall k :: 0 <= k < |line| ==> line[k] != ':' by {
      forall k | 0 <= k < |line| ensures line[k] != ':' {
        if k < |name| { assert line[k] == name[k]; }
        else if |name| < k <= |name| + |j| { assert line[k] == j[k - |name| - 1]; }
        else if k > |name| + |j| + 1 { assert line[k] == tail[k - |name| - |j| - 2]; }
      }
    }
    FindChars(line, ":-");
  }

  /**
   * A rule `name(a1, ..., an) :- body` gets `name/n` whatever the commas of
   * its body, as long as the body holds no `:`: the body's commas are added
   * and taken away again.
   */
  lemma RuleSignature(name: string, args: seq<string>, sep: string, body: string)
    requires IsName(name) && |args| >= 1 && (forall a :: a in args ==> IsWord(a)) && IsArgSep(sep)
    requires forall k :: 0 <= k < |body| ==> body[k] != ':'
    ensures Signature(name + "(" + Join(args, sep) + ")" + " :- " + body) == Some(name + "/" + IntToString(|args|))
  {
    var j := Join(args, sep);
    var tail := " :- " + body;
    Assoc3(name + "(" + j + ")", " :- ", body);
    RuleLine(name, args, sep, body, j, tail, name + "(" + j + ")" + tail);
  }

  lemma RuleLine(name: string, args: seq<string>, sep: string, body: string, j: string, tail: string, line: string)
    requires IsName(name) && |args| >= 1 && (forall a :: a in args ==> IsWord(a)) && IsArgSep(sep)
    requires forall k :: 0 <= k < |body| ==> body[k] != ':'
    requires j == Join(args, sep) && tail == " :- " + body && line == name + "(" + j + ")" + tail
    ensures Signature(line) == Some(name + "/" + IntToString(|args|))
  {
    ArgsJoin(args, sep);
    Assoc3(name + "(" + j, ")", tail);
    CallHead(name, j, ")" + tail, line);
    HeadCommas(name, j, tail, line);
    HasParens(name, j, tail, line);
    SpacedNoComma(" :- ", body);
    SpacedNoComma(" ", body);
    Assoc3(name + "(" + j + ")", " :- ", body);
    NeckAfterHead(name, j, body, name + "(" + j + ")" + " ", line);
    assert Arity(line) == |args|;
    SignatureOf(line, name, |args|);
  }

  lemma SignatureOf(line: string, name: string, n: int)
    requires CallName(line) == Some(name) && Arity(line) == n
    ensures Signature(line) == Some(name + "/" + IntToString(n))
  {
  }

  lemma SpacedNoComma(pre: string, body: string)
    requires pre == " :- " || pre == " "
    ensures CountChar(pre + body, ',') == CountChar(body, ',')
  {
    CountCharConcat(pre, body, ',');
    CountCharNone(pre, ',');
  }

  /** The first `:-` of a rule is its neck, and what follows it up to any further `:-` is its body. */
  lemma NeckAfterHead(name: string, j: string, body: string, head: string, line: string)
    requires IsName(name) && head == name + "(" + j + ")" + " "
    requires forall k :: 0 <= k < |j| ==> IsIdentChar(j[k]) || j[k] == ',' || j[k] == ' '
    requires forall k :: 0 <= k < |body| ==> body[k] != ':'
    requires line == name + "(" + j + ")" + " :- " + body
    ensures Contains(line, ":-") && SecondField(line, ":-") == " " + body
  {
    NoColon(name, j, " ", head);
    assert forall k :: 0 <= k < |head| ==> head[k] != ':' by {
      forall k | 0 <= k < |head| ensures head[k] != ':' {
        if k < |name| { assert head[k] == name[k]; }
        else if |name| < k <= |name| + |j| { assert head[k] == j[k - |name| - 1]; }
      }
    }
    assert line == head + ":-" + (" " + body);
    HeadBeforeNeck(head, " " + body);
    assert OccursAt(line, ":-", |head|);
    var f := Find(line, ":-").value;
    assert f == |head|;
    assert line[f + 2..] == " " + body;
    HeadWithoutNeck(" " + body);
  }

  /** The first field ends at the first `:-`. */
  lemma HeadBeforeNeck(p: string, rest: string)
    requires forall k :: 0 <= k < |p| ==> p[k] != ':'
    ensures Find(p + ":-" + rest, ":-") == Some(|p|)
  {
    var s := p + ":-" + rest;
    assert s[|p|..|p| + 2] == ":-";
    assert OccursAt(s, ":-", |p|);
    FindChars(s, ":-");
  }

  // ---------------------------------------------------------------------------
  // Examples
  // ---------------------------------------------------------------------------

  /**
   * The grandparent rule, written without spaces between arguments, is
   * filed under `grandparent/2` whatever the commas of its body.
   */
  lemma GrandparentSignature(body: string, line: string)
    requires line == "grandparent(GP,GC) :- " + body
    requires forall k :: 0 <= k < |body| ==> body[k] != ':'
    ensures Signature(line) == Some("grandparent/2")
  {
    var args := ["GP", "GC"];
    GrandparentArgs(args);
    GrandparentLine(line, body, Join(args, ","));
    RuleSignature("grandparent", args, ",", body);
    GrandparentName();
  }

  lemma GrandparentArgs(args: seq<string>)
    requires args == ["GP", "GC"]
    ensures |args| == 2 && (forall a :: a in args ==> IsWord(a)) && Join(args, ",") == "GP,GC"
  {
  }

  lemma GrandparentLine(line: string, body: string, j: string)
    requires line == "grandparent(GP,GC) :- " + body && j == "GP,GC"
    ensures IsName("grandparent") && IsArgSep(",")
    ensures line == "grandparent" + "(" + j + ")" + " :- " + body
  {
  }

  lemma GrandparentName()
    ensures "grandparent" + "/" + IntToString(2) == "grandparent/2"
  {
    SmallNumerals();
  }

  /** `name` directly followed by `(` is the name the call pattern reads. */
  lemma NameThenParen(name: string, rest: string, line: string)
    requires IsName(name) && rest != [] && rest[0] == '(' && line == name + rest
    ensures CallName(line) == Some(name)
  {
    IdentEndIs(line, 1, |name|);
    assert line[..|name|] == name;
  }

  /**
   * Unlike v11, an empty argument list is not told apart: `p().` gets
   * `p/1`, since its comma count plus one is one.
   */
  lemma EmptyArguments(line: string)
    requires line == "p()."
    ensures Signature(line) == Some("p/1")
  {
    assert IsName("p") && line == "p" + "().";
    NameThenParen("p", "().", line);
    assert OccursAt(line, "(", 1) && OccursAt(line, ")", 2);
    assert forall k :: 0 <= k < |line| ==> line[k] != ':' && line[k] != ',';
    FindChars(line, ":-");
    CountCharNone(line, ',');
    assert Arity(line) == 1;
    SignatureOf(line, "p", 1);
    SmallNumerals();
    assert "p" + "/" + "1" == "p/1";
  }

  /**
   * A line that opens a call, holds `:-` but no `)` gets a negative arity:
   * the commas after `:-` are taken from zero.
   */
  lemma NegativeArity(line: string)
    requires line == "p(a :- b, c"
    ensures Signature(line) == Some("p/-1")
  {
    UnclosedName(line);
    NoCloseParen(line);
    NeckAt(line);
    AfterNeck(" b, c");
    UnclosedArity(line);
    SignatureOf(line, "p", -1);
    MinusOne();
  }

  lemma UnclosedName(line: string)
    requires line == "p(a :- b, c"
    ensures CallName(line) == Some("p")
  {
    assert IsName("p") && line == "p" + "(a :- b, c";
    NameThenParen("p", "(a :- b, c", line);
  }

  /** Without `)`, the arity is minus the comma count after the neck. */
  lemma UnclosedArity(line: string)
    requires !Contains(line, ")") && Contains(line, ":-")
    ensures Arity(line) == 0 - CountChar(SecondField(line, ":-"), ',')
  {
  }

  lemma MinusOne()
    ensures "p" + "/" + IntToString(-1) == "p/-1"
  {
    assert IntToString(-1) == "-1";
  }

  lemma NoCloseParen(line: string)
    requires line == "p(a :- b, c"
    ensures !Contains(line, ")")
  {
    assert forall k :: 0 <= k < |line| ==> line[k] != ')';
    FindChars(line, ")");
  }

  lemma NeckAt(line: string)
    requires line == "p(a :- b, c"
    ensures Contains(line, ":-") && SecondField(line, ":-") == " b, c"
  {
    assert OccursAt(line, ":-", 4);
    assert forall k :: 0 <= k < 4 ==> line[k] != ':';
    FindChars(line, ":-");
    var after := line[6..];
    assert after == " b, c";
    assert forall k :: 0 <= k < |after| ==> after[k] != ':';
    FindChars(after, ":-");
  }

  lemma AfterNeck(after: string)
    requires after == " b, c"
    ensures CountChar(after, ',') == 1
  {
    assert after == " b" + ", c";
    CountCharConcat(" b", ", c", ',');
    CountCharNone(" b", ',');
    assert ", c" == [','] + " c";
    CountCharNone(" c", ',');
  }
}
