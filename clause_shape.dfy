/**
 * The shape of a Prolog clause head as the schema extractors of v8 and v11
 * read it: a lowercase name, `(`, arguments separated by commas, `)`.
 */
module ClauseShape {
  import opened PyStr

  /** A stripped line every line loop skips: empty, or a `%` comment. */
  predicate Skipped(line: string) { line == [] || line[0] == '%' }

  /** A name as the predicate patterns read it: `[a-z][a-zA-Z0-9_]*`. */
  predicate IsName(n: string) { n != [] && IsLower(n[0]) && forall k :: 0 <= k < |n| ==> IsIdentChar(n[k]) }

  /** An argument made only of identifier characters (a constant or a variable). */
  predicate IsWord(a: string) { a != [] && forall k :: 0 <= k < |a| ==> IsIdentChar(a[k]) }

  /** The argument separators the knowledge bases use: `", "` or `","`. */
  predicate IsArgSep(sep: string) { sep == ", " || sep == "," }

  /**
   * `sep.join(args)`: starts with an identifier character, holds one comma
   * per gap and nothing but words, commas and spaces.
   */
  lemma {:induction false} ArgsJoin(args: seq<string>, sep: string)
    requires |args| >= 1 && forall a :: a in args ==> IsWord(a)
    requires IsArgSep(sep)
    ensures var j := Join(args, sep);
      j != [] && IsIdentChar(j[0]) && CountChar(j, ',') == |args| - 1
      && forall k :: 0 <= k < |j| ==> IsIdentChar(j[k]) || j[k] == ',' || j[k] == ' '
  {
    var a := args[0];
    assert a in args;
    CountCharNone(a, ',');
    if |args| > 1 {
      assert forall b :: b in args[1..] ==> b in args;
      ArgsJoin(args[1..], sep);
      var rest := Join(args[1..], sep);
      var j := Join(args, sep);
      assert j == a + sep + rest;
      assert j == a + (sep + rest);
      CountCharConcat(a, sep + rest, ',');
      CountCharConcat(sep, rest, ',');
      assert CountChar(sep, ',') == 1;
      assert forall k :: 0 <= k < |j| ==> IsIdentChar(j[k]) || j[k] == ',' || j[k] == ' ' by {
        forall k | 0 <= k < |j| ensures IsIdentChar(j[k]) || j[k] == ',' || j[k] == ' ' {
          if k >= |a| + |sep| { assert j[k] == rest[k - |a| - |sep|]; }
          else if k >= |a| { assert j[k] == sep[k - |a|]; }
        }
      }
    }
  }

  /** `:-` absent from `s`: the head is all of `s`. */
  lemma HeadWithoutNeck(s: string)
    requires forall k :: 0 <= k < |s| ==> s[k] != ':'
    ensures FirstField(s, ":-") == s
  {
    FindChars(s, ":-");
  }
}
