/**
 * Schema extraction of v11 (`MCRService._get_kb_schema`): for every line of
 * the knowledge base that is neither blank nor a `%` comment, a `name/arity`
 * signature when `([a-z][a-zA-Z0-9_]*)\s*(?::-|.)` matches at its start, and
 * every lowercase-initial token of every `(...)` group made only of
 * `[a-zA-Z0-9_,\s]`; the whole returned sorted and without duplicates.
 */
module V11Schema {
  import opened PyStr
  import opened Sorting
  import opened V11Extract
  import opened ClauseShape
  import KbText

  // ---------------------------------------------------------------------------
  // The signature of one line
  // ---------------------------------------------------------------------------

  /** First index at or after `i` that does not hold `\n`, or `|s|`. */
  function NonNewlineFrom(s: string, i: nat): (e: nat)
    requires i <= |s|
    ensures i <= e <= |s|
    ensures forall k :: i <= k < e ==> s[k] == '\n'
    ensures e < |s| ==> s[e] != '\n'
    decreases |s| - i
  {
    if i < |s| && s[i] == '\n' then NonNewlineFrom(s, i + 1) else i
  }

  /**
   * `predicate_regex.match(line).group(1)`. The greedy name run is kept when
   * some character other than `\n` can follow it after whitespace (`.` then
   * matches it); otherwise the run gives back its last character to `.`.
   */
  function PredicateName(line: string): (r: Option<string>)
    ensures r.Some? ==> 1 <= |r.value| <= |line| && r.value == line[..|r.value|]
    ensures r.Some? ==> IsLower(r.value[0]) && forall k :: 0 <= k < |r.value| ==> IsIdentChar(r.value[k])
  {
    if line == [] || !IsLower(line[0]) then None
    else
      var e := IdentEnd(line, 1);
      if NonNewlineFrom(line, e) < |line| then Some(line[..e])
      else if e >= 2 then Some(line[..e - 1])
      else None
  }

  /** `0 if '()' in head else head.count(',') + 1`, with `head = line.split(':-')[0]`. */
  function Arity(line: string): nat {
    var head := FirstField(line, ":-");
    if Contains(head, "()") then 0 else CountChar(head, ',') + 1
  }

  /** `f"{name}/{arity}"` when the predicate pattern matches. */
  function Signature(line: string): (r: Option<string>)
    ensures r.Some? <==> PredicateName(line).Some?
  {
    var name := PredicateName(line);
    if name.Some? then Some(name.value + "/" + NatToString(Arity(line))) else None
  }

  // ---------------------------------------------------------------------------
  // The atoms of one line
  // ---------------------------------------------------------------------------

  /** `[a-zA-Z0-9_,\s]` */
  predicate IsAtomChar(c: char) { IsIdentChar(c) || c == ',' || IsSpace(c) }

  /** End of the run of `[a-zA-Z0-9_,\s]` that starts at `i`. */
  function AtomRunEnd(s: string, i: nat): (e: nat)
    requires i <= |s|
    ensures i <= e <= |s|
    ensures forall k :: i <= k < e ==> IsAtomChar(s[k])
    ensures e < |s| ==> !IsAtomChar(s[e])
    decreases |s| - i
  {
    if i < |s| && IsAtomChar(s[i]) then AtomRunEnd(s, i + 1) else i
  }

  /** `(g)` sits at index `i` of `s`, with `g` a non-empty run of `[a-zA-Z0-9_,\s]`. */
  predicate GroupAt(s: string, g: string, i: nat) {
    g != [] && (forall k :: 0 <= k < |g| ==> IsAtomChar(g[k])) && OccursAt(s, "(" + g + ")", i)
  }

  /** `[m.group(1) for m in atom_regex.finditer(s, i)]`: non-overlapping matches, left to right. */
  function Groups(s: string, i: nat): (r: seq<string>)
    requires i <= |s|
    ensures forall g :: g in r ==> exists j :: i <= j < |s| && GroupAt(s, g, j)
    decreases |s| - i
  {
    if i == |s| then []
    else if s[i] == '(' && AtomRunEnd(s, i + 1) > i + 1 && AtomRunEnd(s, i + 1) < |s| && s[AtomRunEnd(s, i + 1)] == ')' then
      var k := AtomRunEnd(s, i + 1);
      var g := s[i + 1..k];
      assert s[i..k + 1] == "(" + g + ")";
      assert GroupAt(s, g, i);
      [g] + Groups(s, k + 1)
    else Groups(s, i + 1)
  }

  /** The stripped pieces of `parts` that are non-empty and start with a lowercase letter. */
  function Atoms(parts: seq<string>): seq<string> {
    if parts == [] then []
    else
      var a := Strip(parts[|parts| - 1]);
      Atoms(parts[..|parts| - 1]) + (if a != [] && IsLower(a[0]) then [a] else [])
  }

  /** The atoms of every group in `gs`. */
  function GroupAtoms(gs: seq<string>): seq<string> {
    if gs == [] then [] else GroupAtoms(gs[..|gs| - 1]) + Atoms(Split(gs[|gs| - 1], ','))
  }

  /** What one stripped line adds to the schema. */
  function KeptItems(line: string): seq<string> {
    if Skipped(line) then []
    else (if Signature(line).Some? then [Signature(line).value] else []) + GroupAtoms(Groups(line, 0))
  }

  /** What one line of `kb.splitlines()` adds, once stripped. */
  function LineItems(raw: string): seq<string> {
    KeptItems(Strip(raw))
  }

  /** The items of `lines`, in order, duplicates kept. */
  function LinesItems(lines: seq<string>): seq<string> {
    if lines == [] then [] else LinesItems(lines[..|lines| - 1]) + LineItems(lines[|lines| - 1])
  }

  /** `_get_kb_schema(kb)` */
  function Schema(kb: string): seq<string> {
    Canonical(LinesItems(SplitLines(kb)))
  }

  // ---------------------------------------------------------------------------
  // The loop
  // ---------------------------------------------------------------------------

  /** `_get_kb_schema`: a set filled line by line, then sorted. */
  method GetKbSchema(kb: string) returns (r: seq<string>)
    ensures r == Schema(kb)
    ensures StrictlySorted(r)
  {
    var items: set<string> := {};
    var lines := SplitLines(kb);
    for i := 0 to |lines|
      invariant forall y :: y in items <==> y in LinesItems(lines[..i])
    {
      assert lines[..i + 1][..i] == lines[..i];
      var line := Strip(lines[i]);
      if Skipped(line) {
        continue;
      }
      items := AddLine(items, line);
    }
    assert lines[..|lines|] == lines;
    r := SortedList(items);
    SortedUnique(r, Canonical(LinesItems(lines)));
  }

  /** The body of the loop for a line that is not skipped. */
  method AddLine(items: set<string>, line: string) returns (out: set<string>)
    requires !Skipped(line)
    ensures forall y :: y in out <==> y in items || y in KeptItems(line)
  {
    out := items;
    var name := PredicateName(line);
    if name.Some? {
      out := out + {name.value + "/" + NatToString(Arity(line))};
    }
    var groups := Groups(line, 0);
    out := AddGroupAtoms(out, groups);
  }

  /** `for atom_match in atom_regex.finditer(line): ...` */
  method AddGroupAtoms(items: set<string>, groups: seq<string>) returns (out: set<string>)
    ensures forall y :: y in out <==> y in items || y in GroupAtoms(groups)
  {
    out := items;
    for j := 0 to |groups|
      invariant forall y :: y in out <==> y in items || y in GroupAtoms(groups[..j])
    {
      assert groups[..j + 1][..j] == groups[..j];
      out := AddAtoms(out, Split(groups[j], ','));
    }
    assert groups[..|groups|] == groups;
  }

  /** `for atom in (a.strip() for a in parts): if atom and atom[0].islower(): ...` */
  method AddAtoms(items: set<string>, parts: seq<string>) returns (out: set<string>)
    ensures forall y :: y in out <==> y in items || y in Atoms(parts)
  {
    out := items;
    for k := 0 to |parts|
      invariant forall y :: y in out <==> y in items || y in Atoms(parts[..k])
    {
      assert parts[..k + 1][..k] == parts[..k];
      var atom := Strip(parts[k]);
      if atom != [] && IsLower(atom[0]) {
        out := out + {atom};
      }
    }
    assert parts[..|parts|] == parts;
  }

  // ---------------------------------------------------------------------------
  // Signatures
  // ---------------------------------------------------------------------------

  /**
   * The wildcard quirk: every stripped line that starts with a lowercase
   * letter and has at least two characters gets a signature, prose included,
   * and no other line does.
   */
  lemma SignatureWhen(line: string)
    requires IsStripped(line)
    ensures Signature(line).Some? <==> |line| >= 2 && IsLower(line[0])
  {
  }

  /** A name directly followed by `(` is read in full. */
  lemma NameBeforeParen(name: string, rest: string, line: string)
    requires IsName(name) && rest != [] && rest[0] == '(' && line == name + rest
    ensures PredicateName(line) == Some(name)
  {
    IdentEndIs(line, 1, |name|);
    assert line[..|name|] == name;
  }

  /** The head ends at the first `:-`. */
  lemma HeadBeforeNeck(p: string, rest: string)
    requires forall k :: 0 <= k < |p| ==> p[k] != ':'
    ensures FirstField(p + ":-" + rest, ":-") == p
  {
    var s := p + ":-" + rest;
    assert s[|p|..|p| + 2] == ":-";
    assert OccursAt(s, ":-", |p|);
    FindChars(s, ":-");
    assert s[..|p|] == p;
  }

  /** No `(` directly followed by `)`: `'()' in s` is false. */
  lemma NoEmptyParens(s: string)
    requires forall k :: 0 <= k < |s| - 1 ==> !(s[k] == '(' && s[k + 1] == ')')
    ensures !Contains(s, "()")
  {
    FindChars(s, "()");
  }

  /** The head `name(args)` followed by one character that is neither `(` nor `,`. */
  lemma HeadArity(name: string, args: seq<string>, tail: char)
    requires IsName(name) && |args| >= 1 && forall a :: a in args ==> IsWord(a)
    requires tail != '(' && tail != ',' && tail != ':'
    ensures var head := name + "(" + Join(args, ", ") + ")" + [tail];
      !Contains(head, "()") && CountChar(head, ',') == |args| - 1
      && forall k :: 0 <= k < |head| ==> head[k] != ':'
  {
    var j := Join(args, ", ");
    ArgsJoin(args, ", ");
    var head := name + "(" + j + ")" + [tail];
    assert head == name + ("(" + (j + (")" + [tail])));
    assert forall k :: 0 <= k < |head| && k != |name| ==> head[k] != '(' by {
      forall k | 0 <= k < |head| && k != |name| ensures head[k] != '(' {
        if k < |name| { assert head[k] == name[k]; }
        else if |name| < k <= |name| + |j| { assert head[k] == j[k - |name| - 1]; }
      }
    }
    assert head[|name| + 1] == j[0];
    NoEmptyParens(head);
    assert forall k :: 0 <= k < |head| ==> head[k] != ':' by {
      forall k | 0 <= k < |head| ensures head[k] != ':' {
        if k < |name| { assert head[k] == name[k]; }
        else if |name| < k <= |name| + |j| { assert head[k] == j[k - |name| - 1]; }
      }
    }
    CountCharNone(name, ',');
    CountCharNone("(", ',');
    CountCharNone(")" + [tail], ',');
    CountCharConcat(name, "(" + (j + (")" + [tail])), ',');
    CountCharConcat("(", j + (")" + [tail]), ',');
    CountCharConcat(j, ")" + [tail], ',');
  }

  /** The signature of a line from its name and its head. */
  lemma SignatureFrom(line: string, name: string, head: string, n: nat)
    requires PredicateName(line) == Some(name)
    requires FirstField(line, ":-") == head && !Contains(head, "()") && CountChar(head, ',') + 1 == n
    ensures Signature(line) == Some(name + "/" + NatToString(n))
  {
  }

  /** The head of a fact is the whole line. */
  lemma FactHead(name: string, args: seq<string>, j: string, line: string)
    requires IsName(name) && |args| >= 1 && forall a :: a in args ==> IsWord(a)
    requires j == Join(args, ", ") && line == name + "(" + j + ")" + "."
    ensures FirstField(line, ":-") == line && !Contains(line, "()") && CountChar(line, ',') == |args| - 1
  {
    HeadArity(name, args, '.');
    HeadWithoutNeck(line);
  }

  /** The head of a rule ends with the space before `:-`. */
  lemma RuleHead(name: string, args: seq<string>, j: string, body: string, head: string, line: string)
    requires IsName(name) && |args| >= 1 && forall a :: a in args ==> IsWord(a)
    requires j == Join(args, ", ") && head == name + "(" + j + ")" + " "
    requires line == name + "(" + j + ")" + " :- " + body
    ensures FirstField(line, ":-") == head && !Contains(head, "()") && CountChar(head, ',') == |args| - 1
  {
    HeadArity(name, args, ' ');
    assert line == head + ":-" + (" " + body);
    HeadBeforeNeck(head, " " + body);
  }

  /** A fact `name(a1, ..., an).` gets the signature `name/n`. */
  lemma FactSignature(name: string, args: seq<string>)
    requires IsName(name) && |args| >= 1 && forall a :: a in args ==> IsWord(a)
    ensures Signature(name + "(" + Join(args, ", ") + ")" + ".") == Some(name + "/" + NatToString(|args|))
  {
    FactLine(name, args, Join(args, ", "), name + "(" + Join(args, ", ") + ")" + ".");
  }

  lemma FactLine(name: string, args: seq<string>, j: string, line: string)
    requires IsName(name) && |args| >= 1 && forall a :: a in args ==> IsWord(a)
    requires j == Join(args, ", ") && line == name + "(" + j + ")" + "."
    ensures Signature(line) == Some(name + "/" + NatToString(|args|))
  {
    FactHead(name, args, j, line);
    Assoc5(name, "(", j, ")", ".");
    NameBeforeParen(name, "(" + j + ")" + ".", line);
    SignatureFrom(line, name, line, |args|);
  }

  /** A rule `name(a1, ..., an) :- body` gets the signature `name/n`, whatever the body. */
  lemma RuleSignature(name: string, args: seq<string>, body: string)
    requires IsName(name) && |args| >= 1 && forall a :: a in args ==> IsWord(a)
    ensures Signature(name + "(" + Join(args, ", ") + ")" + " :- " + body) == Some(name + "/" + NatToString(|args|))
  {
    var j := Join(args, ", ");
    RuleLine(name, args, j, body, name + "(" + j + ")" + " ", name + "(" + j + ")" + " :- " + body);
  }

  lemma RuleLine(name: string, args: seq<string>, j: string, body: string, head: string, line: string)
    requires IsName(name) && |args| >= 1 && forall a :: a in args ==> IsWord(a)
    requires j == Join(args, ", ") && head == name + "(" + j + ")" + " "
    requires line == name + "(" + j + ")" + " :- " + body
    ensures Signature(line) == Some(name + "/" + NatToString(|args|))
  {
    RuleHead(name, args, j, body, head, line);
    RuleName(name, j, body, line);
    SignatureFrom(line, name, head, |args|);
  }

  /** The name of a rule is read up to its `(`. */
  lemma RuleName(name: string, j: string, body: string, line: string)
    requires IsName(name) && line == name + "(" + j + ")" + " :- " + body
    ensures PredicateName(line) == Some(name)
  {
    Assoc3(name + "(" + j + ")", " :- ", body);
    Assoc5(name, "(", j, ")", " :- " + body);
    NameBeforeParen(name, "(" + j + ")" + (" :- " + body), line);
  }

  /** `foo(a)` gets `foo/1` ... */
  lemma OneArgument(line: string)
    requires line == "foo(a)."
    ensures Signature(line) == Some("foo/1")
  {
    FooArgs(["a"], "a");
    FooLine("a", line);
    FactLine("foo", ["a"], "a", line);
    FooName1();
  }

  lemma FooName1()
    ensures "foo" + "/" + NatToString(1) == "foo/1"
  {
    SmallNumerals();
  }

  /** ... and `foo(a, b)` gets `foo/2`: the arity tells them apart. */
  lemma TwoArguments(line: string)
    requires line == "foo(a, b)."
    ensures Signature(line) == Some("foo/2")
  {
    FooArgs(["a", "b"], "a, b");
    FooLine("a, b", line);
    FactLine("foo", ["a", "b"], "a, b", line);
    FooName2();
  }

  lemma FooName2()
    ensures "foo" + "/" + NatToString(2) == "foo/2"
  {
    SmallNumerals();
  }

  lemma FooArgs(args: seq<string>, j: string)
    requires (args == ["a"] && j == "a") || (args == ["a", "b"] && j == "a, b")
    ensures |args| >= 1 && (forall a :: a in args ==> IsWord(a)) && j == Join(args, ", ")
  {
  }

  lemma FooLine(j: string, line: string)
    requires line == "foo(" + j + ")."
    ensures IsName("foo") && line == "foo" + "(" + j + ")" + "."
  {
  }

  /** The grandparent rule of the royal-family demo is filed under its head, whatever its body. */
  lemma GrandparentSignature(body: string, line: string)
    requires line == "grandparent(GP, GC) :- " + body
    ensures Signature(line) == Some("grandparent/2")
  {
    GrandparentArgs(["GP", "GC"]);
    GrandparentLine(body, line);
    RuleLine("grandparent", ["GP", "GC"], "GP, GC", body, "grandparent(GP, GC) ", line);
    GrandparentName();
  }

  lemma GrandparentName()
    ensures "grandparent" + "/" + NatToString(2) == "grandparent/2"
  {
    SmallNumerals();
  }

  lemma GrandparentArgs(args: seq<string>)
    requires args == ["GP", "GC"]
    ensures |args| == 2 && Join(args, ", ") == "GP, GC"
    ensures forall a :: a in args ==> IsWord(a)
  {
  }

  lemma GrandparentLine(body: string, line: string)
    requires line == "grandparent(GP, GC) :- " + body
    ensures IsName("grandparent")
    ensures line == "grandparent" + "(" + "GP, GC" + ")" + " :- " + body
    ensures "grandparent(GP, GC) " == "grandparent" + "(" + "GP, GC" + ")" + " "
  {
  }

  /** An empty argument list in the head gives arity 0. */
  lemma EmptyArguments(line: string)
    requires line == "p()."
    ensures Signature(line) == Some("p/0")
  {
    assert IsName("p");
    assert "p" + "()." == line;
    NameBeforeParen("p", "().", line);
    HeadWithoutNeck(line);
    assert line[1..3] == "()";
    assert OccursAt(line, "()", 1);
    SmallNumerals();
    assert "p" + "/" + "0" == "p/0";
  }

  // ---------------------------------------------------------------------------
  // Atoms
  // ---------------------------------------------------------------------------

  /** The characters of a group found at `i`. */
  lemma GroupAtChars(s: string, g: string, i: nat)
    requires GroupAt(s, g, i)
    ensures i + |g| + 2 <= |s| && s[i] == '(' && s[i + |g| + 1] == ')'
    ensures forall m :: 0 <= m < |g| ==> s[i + 1 + m] == g[m]
  {
    var w := s[i..i + |g| + 2];
    assert w == "(" + g + ")";
    assert w[0] == s[i] && w[|g| + 1] == s[i + |g| + 1];
    forall m | 0 <= m < |g| ensures s[i + 1 + m] == g[m] {
      assert w[1 + m] == s[i + 1 + m];
    }
  }

  lemma AtomRunEndIs(s: string, i: nat, e: nat)
    requires i <= e <= |s|
    requires forall k :: i <= k < e ==> IsAtomChar(s[k])
    requires e < |s| ==> !IsAtomChar(s[e])
    ensures AtomRunEnd(s, i) == e
  {
  }

  /** `finditer` finds every parenthesised group: groups cannot overlap, so none is skipped. */
  lemma {:induction false} GroupsComplete(s: string, g: string, i: nat, j: nat)
    requires GroupAt(s, g, i) && j <= i
    ensures g in Groups(s, j)
    decreases i - j
  {
    if j == i {
      GroupHere(s, g, i);
    } else {
      GroupBefore(s, g, i, j);
      GroupsComplete(s, g, i, NextGroup(s, j));
      GroupsStep(s, j, g);
    }
  }

  /** Where `finditer` resumes after looking at index `j`. */
  function NextGroup(s: string, j: nat): nat
    requires j < |s|
  {
    var k := AtomRunEnd(s, j + 1);
    if s[j] == '(' && k > j + 1 && k < |s| && s[k] == ')' then k + 1 else j + 1
  }

  /** A group found at `i` is the first one `finditer` reports from `i`. */
  lemma GroupHere(s: string, g: string, i: nat)
    requires GroupAt(s, g, i)
    ensures g in Groups(s, i)
  {
    GroupAtChars(s, g, i);
    AtomRunEndIs(s, i + 1, i + 1 + |g|);
    assert s[i + 1..i + 1 + |g|] == g;
  }

  /** Looking at any index before a group resumes at or before that group. */
  lemma GroupBefore(s: string, g: string, i: nat, j: nat)
    requires GroupAt(s, g, i) && j < i
    ensures j < |s| && j < NextGroup(s, j) <= i
  {
    GroupAtChars(s, g, i);
    assert !IsAtomChar(s[i]);
  }

  /** What `finditer` reports after resuming is reported from `j`. */
  lemma GroupsStep(s: string, j: nat, g: string)
    requires j < |s| && g in Groups(s, NextGroup(s, j))
    ensures g in Groups(s, j)
  {
  }

  /** `y` is a lowercase-initial stripped piece of a `(...)` group of `line`. */
  ghost predicate IsAtomOf(line: string, y: string) {
    exists g, i, p :: GroupAt(line, g, i) && p in Split(g, ',') && y == Strip(p) && y != [] && IsLower(y[0])
  }

  lemma {:induction false} AtomsMember(parts: seq<string>, y: string)
    ensures y in Atoms(parts) <==> exists p :: p in parts && y == Strip(p) && y != [] && IsLower(y[0])
  {
    if parts != [] {
      var init := parts[..|parts| - 1];
      AtomsMember(init, y);
      assert forall p :: p in parts <==> p in init || p == parts[|parts| - 1];
    }
  }

  lemma {:induction false} GroupAtomsMember(gs: seq<string>, y: string)
    ensures y in GroupAtoms(gs) <==> exists g :: g in gs && y in Atoms(Split(g, ','))
  {
    if gs != [] {
      var init := gs[..|gs| - 1];
      var last := gs[|gs| - 1];
      GroupAtomsMember(init, y);
      assert GroupAtoms(gs) == GroupAtoms(init) + Atoms(Split(last, ','));
      if y in GroupAtoms(gs) {
        if y in GroupAtoms(init) {
          var g :| g in init && y in Atoms(Split(g, ','));
          assert g in gs;
        } else {
          assert last in gs;
        }
      }
      if exists g :: g in gs && y in Atoms(Split(g, ',')) {
        var g :| g in gs && y in Atoms(Split(g, ','));
        if g != last {
          assert g in init;
        }
      }
    }
  }

  /**
   * What a kept line contributes: its signature, and exactly the
   * lowercase-initial stripped pieces of its parenthesised groups.
   */
  lemma KeptItemsAre(line: string, y: string)
    requires !Skipped(line)
    ensures y in KeptItems(line) <==> Signature(line) == Some(y) || IsAtomOf(line, y)
  {
    var gs := Groups(line, 0);
    GroupAtomsMember(gs, y);
    if IsAtomOf(line, y) {
      var g, i, p :| GroupAt(line, g, i) && p in Split(g, ',') && y == Strip(p) && y != [] && IsLower(y[0]);
      GroupsComplete(line, g, i, 0);
      AtomsMember(Split(g, ','), y);
    }
    if y in GroupAtoms(gs) {
      var g :| g in gs && y in Atoms(Split(g, ','));
      AtomsMember(Split(g, ','), y);
      var i :| 0 <= i < |line| && GroupAt(line, g, i);
    }
  }

  // ---------------------------------------------------------------------------
  // The whole schema
  // ---------------------------------------------------------------------------

  lemma {:induction false} LinesItemsMember(lines: seq<string>, y: string)
    ensures y in LinesItems(lines) <==> exists l :: l in lines && y in LineItems(l)
  {
    if lines != [] {
      var init := lines[..|lines| - 1];
      LinesItemsMember(init, y);
      assert forall l :: l in lines <==> l in init || l == lines[|lines| - 1];
    }
  }

  /** The stripped lines that are neither blank nor comments. */
  function KeptLines(kb: string): set<string> {
    set l | l in SplitLines(kb) && !Skipped(Strip(l)) :: Strip(l)
  }

  /**
   * The schema is sorted and duplicate-free, and holds exactly the
   * signatures and atoms of the kept lines; blank and `%` lines add nothing.
   */
  lemma SchemaMembers(kb: string, y: string)
    ensures StrictlySorted(Schema(kb))
    ensures y in Schema(kb) <==> exists line :: line in KeptLines(kb) && (Signature(line) == Some(y) || IsAtomOf(line, y))
  {
    LinesItemsMember(SplitLines(kb), y);
    if y in Schema(kb) {
      var l :| l in SplitLines(kb) && y in LineItems(l);
      KeptItemsAre(Strip(l), y);
    }
    if exists line :: line in KeptLines(kb) && (Signature(line) == Some(y) || IsAtomOf(line, y)) {
      var line :| line in KeptLines(kb) && (Signature(line) == Some(y) || IsAtomOf(line, y));
      var l :| l in SplitLines(kb) && !Skipped(Strip(l)) && Strip(l) == line;
      KeptItemsAre(line, y);
    }
  }

  /** Only the set of kept lines matters: order, repeats, blank and comment lines do not. */
  lemma SchemaOfKeptLines(a: string, b: string)
    requires KeptLines(a) == KeptLines(b)
    ensures Schema(a) == Schema(b)
  {
    forall y ensures y in Schema(a) <==> y in Schema(b) {
      SchemaMembers(a, y);
      SchemaMembers(b, y);
    }
    SortedUnique(Schema(a), Schema(b));
  }

  /** A line with no `(` has no atoms. */
  lemma NoParenNoGroups(line: string)
    requires forall k :: 0 <= k < |line| ==> line[k] != '('
    ensures Groups(line, 0) == []
  {
    var gs := Groups(line, 0);
    if gs != [] {
      assert gs[0] in gs;
      var j :| 0 <= j < |line| && GroupAt(line, gs[0], j);
      GroupAtChars(line, gs[0], j);
    }
  }

  /**
   * Appending clauses never loses a schema entry, and every entry of an
   * appended clause is in the new schema.
   */
  lemma SchemaGrows(kb: string, added: seq<string>)
    requires added != [] && forall c :: c in added ==> KbText.OneLine(c)
    ensures forall y :: y in Schema(kb) ==> y in Schema(KbText.Appended(kb, added))
    ensures forall c, y :: c in added && !Skipped(c) && y in KeptItems(c) ==> y in Schema(KbText.Appended(kb, added))
  {
    var t := KbText.Appended(kb, added);
    KbText.AppendedLines(kb, added);
    assert KeptLines(kb) <= KeptLines(t) by {
      forall line | line in KeptLines(kb) ensures line in KeptLines(t) {
        var l :| l in SplitLines(kb) && !Skipped(Strip(l)) && Strip(l) == line;
        var m :| m in SplitLines(t) && Strip(m) == line;
      }
    }
    forall y | y in Schema(kb) ensures y in Schema(t) {
      SchemaMembers(kb, y);
      SchemaMembers(t, y);
    }
    forall c, y | c in added && !Skipped(c) && y in KeptItems(c) ensures y in Schema(t) {
      StripOfStripped(c);
      assert c in KeptLines(t);
      KeptItemsAre(c, y);
      SchemaMembers(t, y);
    }
  }

  /** The wildcard quirk on prose: `the sky is blue` is filed as `the/1`. */
  lemma ProseLine(line: string)
    requires line == "the sky is blue"
    ensures KeptItems(line) == ["the/1"]
  {
    IdentEndIs(line, 1, 3);
    assert line[..3] == "the";
    assert PredicateName(line) == Some("the");
    HeadWithoutNeck(line);
    NoEmptyParens(line);
    CountCharNone(line, ',');
    NoParenNoGroups(line);
    SmallNumerals();
    assert "the" + "/" + "1" == "the/1";
  }
}
