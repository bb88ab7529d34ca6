/**
 * `str.format(**kwargs)` on a prompt template. A template is a sequence of
 * literal text and `{key}` replacement fields; the literal prose of the
 * prompts is not spelled out, only where the fields sit.
 */
module Templates {
  import opened Errors

  datatype Segment = Lit(text: string) | Hole(key: string)

  type Template = seq<Segment>

  /** The names of the replacement fields of `t`. */
  function Holes(t: Template): set<string> {
    if t == [] then {} else (if t[0].Hole? then {t[0].key} else {}) + Holes(t[1..])
  }

  /** The names of the replacement fields of `t`, left to right. */
  function Fields(t: Template): seq<string> {
    if t == [] then [] else (if t[0].Hole? then [t[0].key] else []) + Fields(t[1..])
  }

  /**
   * `t.format(**args)`: every field is replaced by its argument; the first
   * field (from the left) without an argument raises `KeyError`; arguments
   * no field names are ignored.
   */
  function Format(t: Template, args: map<string, string>): (r: Result<string>)
    ensures r.Ok? <==> Holes(t) <= args.Keys
    ensures r.Err? ==> r.error.KeyError? && r.error.key in Holes(t) && r.error.key !in args
  {
    if t == [] then Ok("")
    else if t[0].Hole? && t[0].key !in args then Err(KeyError(t[0].key))
    else
      var head := if t[0].Lit? then t[0].text else args[t[0].key];
      var rest := Format(t[1..], args);
      if rest.Err? then rest else Ok(head + rest.value)
  }

  /** A field's argument appears verbatim in the formatted text, between the texts of the two sides. */
  lemma {:induction false} FormatSplit(t: Template, args: map<string, string>, i: nat)
    requires i < |t| && t[i].Hole? && Format(t, args).Ok?
    ensures t[i].key in args
    ensures Format(t[..i], args).Ok? && Format(t[i + 1..], args).Ok?
    ensures Format(t, args).value == Format(t[..i], args).value + args[t[i].key] + Format(t[i + 1..], args).value
  {
    if i == 0 {
      assert t[..0] == [];
      assert t[1..] == t[i + 1..];
    } else {
      var p := t[..i];
      FormatSplit(t[1..], args, i - 1);
      assert p[0] == t[0];
      assert p[1..] == t[1..][..i - 1];
      assert t[1..][i - 1 + 1..] == t[i + 1..];
      FormatCons(t, args);
      FormatConsOk(p, args);
    }
  }

  /** Unfolds `Format` once on a template that formats. */
  lemma FormatCons(t: Template, args: map<string, string>)
    requires t != [] && Format(t, args).Ok?
    ensures t[0].Hole? ==> t[0].key in args
    ensures Format(t[1..], args).Ok?
    ensures Format(t, args).value == (if t[0].Lit? then t[0].text else args[t[0].key]) + Format(t[1..], args).value
  {
  }

  /** A template formats when its first field has an argument and the rest formats. */
  lemma FormatConsOk(t: Template, args: map<string, string>)
    requires t != [] && (t[0].Hole? ==> t[0].key in args) && Format(t[1..], args).Ok?
    ensures Format(t, args).Ok?
    ensures Format(t, args).value == (if t[0].Lit? then t[0].text else args[t[0].key]) + Format(t[1..], args).value
  {
  }

  /** Two argument maps that agree on the fields of `t` format it alike. */
  lemma {:induction false} FormatAgree(t: Template, a: map<string, string>, b: map<string, string>)
    requires forall k :: k in Holes(t) ==> (k in a <==> k in b) && (k in a ==> a[k] == b[k])
    ensures Format(t, a) == Format(t, b)
  {
    if t != [] {
      FormatAgree(t[1..], a, b);
    }
  }

  /**
   * A prompt template as the catalogues write them: literal text around
   * each field, fields named `keys` in order, no two fields adjacent.
   */
  predicate Shaped(t: Template, keys: seq<string>) {
    |t| == 2 * |keys| + 1
    && (forall i :: 0 <= i < |t| && i % 2 == 0 ==> t[i].Lit?)
    && (forall i :: 0 <= i < |keys| ==> t[2 * i + 1] == Hole(keys[i]))
  }

  /** A lone literal renders as itself. */
  /** The text of the `j`-th segment when it is a literal part, otherwise empty. */
  function LitAt(t: Template, j: nat): string {
    if j < |t| && t[j].Lit? then t[j].text else ""
  }

  lemma FormatLit(t: Template, args: map<string, string>)
    requires |t| == 1 && t[0].Lit?
    ensures Format(t, args) == Ok(t[0].text)
  {
    assert t[1..] == [];
    assert t[0].text + "" == t[0].text;
  }

  /** A literal and a field with its argument render ahead of the rest. */
  lemma FormatStep(t: Template, k: string, args: map<string, string>)
    requires |t| >= 2 && t[0].Lit? && t[1] == Hole(k) && k in args && Format(t[2..], args).Ok?
    ensures Format(t, args) == Ok(t[0].text + args[k] + Format(t[2..], args).value)
  {
    assert t[1..][1..] == t[2..];
    FormatConsOk(t[1..], args);
    FormatConsOk(t, args);
    var rest := Format(t[2..], args).value;
    assert t[0].text + (args[k] + rest) == t[0].text + args[k] + rest;
  }

  /** A one-field template with its argument renders as text, argument, text. */
  lemma FormatOne(t: Template, k: string, args: map<string, string>)
    requires Shaped(t, [k]) && k in args
    ensures Format(t, args) == Ok(t[0].text + args[k] + t[2].text)
  {
    assert [k][0] == k;
    FormatLit(t[2..], args);
    FormatStep(t, k, args);
  }

  /** A two-field template with both arguments renders its texts and arguments alternately. */
  lemma FormatTwo(t: Template, k1: string, k2: string, args: map<string, string>)
    requires Shaped(t, [k1, k2]) && k1 in args && k2 in args
    ensures Format(t, args) == Ok(t[0].text + args[k1] + t[2].text + args[k2] + t[4].text)
  {
    assert [k1, k2][0] == k1 && [k1, k2][1] == k2;
    var u := t[2..];
    assert u[0] == t[2] && u[1] == t[3] && u[2..] == t[4..];
    FormatLit(t[4..], args);
    FormatStep(u, k2, args);
    FormatStep(t, k1, args);
    var tail := t[2].text + args[k2] + t[4].text;
    assert t[0].text + args[k1] + tail == t[0].text + args[k1] + t[2].text + args[k2] + t[4].text;
  }

  /** A three-field template with every argument renders its texts and arguments alternately. */
  lemma FormatThree(t: Template, k1: string, k2: string, k3: string, args: map<string, string>)
    requires Shaped(t, [k1, k2, k3]) && k1 in args && k2 in args && k3 in args
    ensures Format(t, args) == Ok(t[0].text + args[k1] + t[2].text + args[k2] + t[4].text + args[k3] + t[6].text)
  {
    assert [k1, k2, k3][0] == k1 && [k1, k2, k3][1] == k2 && [k1, k2, k3][2] == k3;
    var u := t[2..];
    var v := t[4..];
    assert u[0] == t[2] && u[1] == t[3] && u[2..] == v;
    assert v[0] == t[4] && v[1] == t[5] && v[2..] == t[6..];
    FormatLit(t[6..], args);
    FormatStep(v, k3, args);
    FormatStep(u, k2, args);
    FormatStep(t, k1, args);
    var tail := t[4].text + args[k3] + t[6].text;
    var mid := t[2].text + args[k2] + tail;
    assert mid == t[2].text + args[k2] + t[4].text + args[k3] + t[6].text;
    assert t[0].text + args[k1] + mid == t[0].text + args[k1] + t[2].text + args[k2] + t[4].text + args[k3] + t[6].text;
  }
}
