/**
 * `PromptManager.get` of the three versions. The prose of the prompt
 * catalogues is not spelled out: a catalogue is any map from template name
 * to templates that has the names and the replacement fields of the
 * version's `_PROMPTS`.
 */
module Prompts {
  import opened Errors
  import opened PyStr
  import opened Templates

  /** v5 and v8: one template per name. */
  type Catalogue = map<string, Template>

  /** v11: a list of variants per name. */
  type Variants = map<string, seq<Template>>

  // ---------------------------------------------------------------------------
  // The catalogues
  // ---------------------------------------------------------------------------

  /** The v5 `_PROMPTS`. */
  predicate Catalogue5(c: Catalogue) {
    c.Keys == {"NL_TO_RULES", "NL_TO_QUERY", "RESULT_TO_NL"}
    && Shaped(c["NL_TO_RULES"], ["text"])
    && Shaped(c["NL_TO_QUERY"], ["query"])
    && Shaped(c["RESULT_TO_NL"], ["style", "query", "result"])
  }

  /** The v8 `_PROMPTS`. */
  predicate Catalogue8(c: Catalogue) {
    c.Keys == {"NL_TO_RULES", "NL_TO_QUERY", "RESULT_TO_NL"}
    && Shaped(c["NL_TO_RULES"], ["schema_section", "text"])
    && Shaped(c["NL_TO_QUERY"], ["schema_section", "query"])
    && Shaped(c["RESULT_TO_NL"], ["query", "result"])
  }

  /** Every variant of `name` in `c` has the fields `keys`, and there is at least one. */
  predicate AllShaped(c: Variants, name: string, keys: seq<string>)
    requires name in c
  {
    c[name] != [] && forall t :: t in c[name] ==> Shaped(t, keys)
  }

  /** The v11 `_PROMPTS`. */
  predicate Catalogue11(c: Variants) {
    c.Keys == {"INTENT_CLASSIFIER", "NL_TO_FACTS", "NL_TO_RULES", "NL_TO_QUERY", "RESULT_TO_NL"}
    && AllShaped(c, "INTENT_CLASSIFIER", ["text"])
    && AllShaped(c, "NL_TO_FACTS", ["schema_section", "text"])
    && AllShaped(c, "NL_TO_RULES", ["schema_section", "text"])
    && AllShaped(c, "NL_TO_QUERY", ["schema_section", "query"])
    && AllShaped(c, "RESULT_TO_NL", ["query", "result"])
  }

  // ---------------------------------------------------------------------------
  // get
  // ---------------------------------------------------------------------------

  /** v5: `self._PROMPTS[template_name].format(**kwargs)`. */
  function Get5(c: Catalogue, name: string, args: map<string, string>): (r: Result<string>)
    ensures name !in c ==> r == Err(KeyError(name))
    ensures r.Ok? <==> name in c && Holes(c[name]) <= args.Keys
  {
    if name in c then Format(c[name], args) else Err(KeyError(name))
  }

  /** The first line and the start of the second line of the schema section, per version. */
  const SchemaHeader8 := "--- SCHEMA ---\n% The knowledge base currently has these predicates: "
  const SchemaHeader11 := "--- SCHEMA ---\n% KB contains: "

  /**
   * The schema section: empty unless there is a non-empty schema, and then
   * the version's header, the entries joined by `", "` and a newline.
   */
  function SchemaSection(header: string, schema: Option<seq<string>>): (r: string)
    ensures r == [] <==> schema.None? || schema.value == []
  {
    if schema.Some? && schema.value != [] then header + Join(schema.value, ", ") + "\n" else ""
  }

  /** v8: `schema_section` added to the arguments, then the one template of `name` formatted. */
  function Get8(c: Catalogue, name: string, args: map<string, string>, schema: Option<seq<string>>): (r: Result<string>)
    ensures name !in c ==> r == Err(KeyError(name))
    ensures r.Ok? <==> name in c && Holes(c[name]) <= args.Keys + {"schema_section"}
  {
    var kwargs := args["schema_section" := SchemaSection(SchemaHeader8, schema)];
    if name in c then Format(c[name], kwargs) else Err(KeyError(name))
  }

  /** `[t.format(**args) for t in ts]`: the first template that fails raises. */
  function FormatAll(ts: seq<Template>, args: map<string, string>): (r: Result<seq<string>>)
    ensures r.Ok? ==> |r.value| == |ts| && forall i :: 0 <= i < |ts| ==> Format(ts[i], args) == Ok(r.value[i])
    ensures r.Ok? <==> forall i :: 0 <= i < |ts| ==> Format(ts[i], args).Ok?
    ensures r.Err? ==> exists i :: 0 <= i < |ts| && Format(ts[i], args) == Err(r.error)
  {
    if ts == [] then Ok([])
    else
      var head := Format(ts[0], args);
      if head.Err? then Err(head.error)
      else
        var rest := FormatAll(ts[1..], args);
        if rest.Err? then
          assert forall i :: 1 <= i < |ts| ==> ts[1..][i - 1] == ts[i];
          Err(rest.error)
        else
          assert forall i :: 1 <= i < |ts| ==> ts[1..][i - 1] == ts[i];
          Ok([head.value] + rest.value)
  }

  /**
   * v11: one rendered prompt per variant of `name`, in declaration order,
   * and no prompt at all for a name the catalogue does not have.
   */
  function Get11(c: Variants, name: string, args: map<string, string>, schema: Option<seq<string>>): (r: Result<seq<string>>)
    ensures name !in c ==> r == Ok([])
    ensures name in c && r.Ok? ==>
      |r.value| == |c[name]|
      && forall i :: 0 <= i < |r.value| ==> Format(c[name][i], args["schema_section" := SchemaSection(SchemaHeader11, schema)]) == Ok(r.value[i])
  {
    var kwargs := args["schema_section" := SchemaSection(SchemaHeader11, schema)];
    if name in c then FormatAll(c[name], kwargs) else Ok([])
  }

  // ---------------------------------------------------------------------------
  // The prompts the services ask for
  // ---------------------------------------------------------------------------

  /** v5: the text sits between the literal parts of the rules template, and so does the query in the query template. */
  lemma Prompts5(c: Catalogue, text: string, query: string)
    requires Catalogue5(c)
    ensures var t := c["NL_TO_RULES"];
      Get5(c, "NL_TO_RULES", map["text" := text]) == Ok(t[0].text + text + t[2].text)
    ensures var t := c["NL_TO_QUERY"];
      Get5(c, "NL_TO_QUERY", map["query" := query]) == Ok(t[0].text + query + t[2].text)
  {
    FormatOne(c["NL_TO_RULES"], "text", map["text" := text]);
    FormatOne(c["NL_TO_QUERY"], "query", map["query" := query]);
  }

  /** v5: the explanation prompt carries the style, the goal and the encoded result, in that order. */
  lemma Answer5(c: Catalogue, style: string, query: string, result: string)
    requires Catalogue5(c)
    ensures var t := c["RESULT_TO_NL"];
      Get5(c, "RESULT_TO_NL", map["query" := query, "result" := result, "style" := style])
      == Ok(t[0].text + style + t[2].text + query + t[4].text + result + t[6].text)
  {
    var args := map["query" := query, "result" := result, "style" := style];
    FormatThree(c["RESULT_TO_NL"], "style", "query", "result", args);
  }

  /** v5: without a style the explanation template raises `KeyError('style')`. */
  lemma AnswerNeedsStyle5(c: Catalogue, query: string, result: string)
    requires Catalogue5(c)
    ensures Get5(c, "RESULT_TO_NL", map["query" := query, "result" := result]) == Err(KeyError("style"))
  {
    var t := c["RESULT_TO_NL"];
    var args := map["query" := query, "result" := result];
    assert ["style", "query", "result"][0] == "style";
    assert t[0].Lit? && t[1] == Hole("style");
    assert t[1..][0] == Hole("style") && "style" !in args;
    assert Format(t[1..], args) == Err(KeyError("style"));
  }

  /**
   * v8: the schema section sits between the first two literal parts of the
   * template and the request after it; only the section depends on the
   * schema, and it is empty for a missing or empty schema.
   */
  lemma Prompts8(c: Catalogue, name: string, key: string, value: string, schema: Option<seq<string>>)
    requires Catalogue8(c)
    requires (name == "NL_TO_RULES" && key == "text") || (name == "NL_TO_QUERY" && key == "query")
    ensures var t := c[name];
      Get8(c, name, map[key := value], schema)
      == Ok(t[0].text + SchemaSection(SchemaHeader8, schema) + t[2].text + value + t[4].text)
  {
    var args := map[key := value]["schema_section" := SchemaSection(SchemaHeader8, schema)];
    assert args[key] == value;
    FormatTwo(c[name], "schema_section", key, args);
  }

  /** v8: the explanation prompt carries the goal and the encoded result. */
  lemma Answer8(c: Catalogue, query: string, result: string)
    requires Catalogue8(c)
    ensures var t := c["RESULT_TO_NL"];
      Get8(c, "RESULT_TO_NL", map["query" := query, "result" := result], None)
      == Ok(t[0].text + query + t[2].text + result + t[4].text)
  {
    var args := map["query" := query, "result" := result]["schema_section" := ""];
    FormatTwo(c["RESULT_TO_NL"], "query", "result", args);
  }

  /**
   * v11: each variant of a schema-aware template gets the section between
   * its first two literal parts and the request after it.
   */
  lemma Prompts11(c: Variants, name: string, key: string, value: string, schema: Option<seq<string>>)
    requires Catalogue11(c)
    requires ((name == "NL_TO_FACTS" || name == "NL_TO_RULES") && key == "text") || (name == "NL_TO_QUERY" && key == "query")
    ensures var r := Get11(c, name, map[key := value], schema);
      r.Ok? && |r.value| == |c[name]| && |r.value| >= 1
      && forall i :: 0 <= i < |r.value| ==>
        r.value[i] == LitAt(c[name][i], 0) + SchemaSection(SchemaHeader11, schema) + LitAt(c[name][i], 2) + value + LitAt(c[name][i], 4)
  {
    var args := map[key := value]["schema_section" := SchemaSection(SchemaHeader11, schema)];
    assert args[key] == value;
    forall i | 0 <= i < |c[name]|
      ensures Format(c[name][i], args) == Ok(LitAt(c[name][i], 0) + SchemaSection(SchemaHeader11, schema) + LitAt(c[name][i], 2) + value + LitAt(c[name][i], 4))
    {
      assert c[name][i] in c[name];
      FormatTwo(c[name][i], "schema_section", key, args);
    }
  }

  /** v11: the classifier and explanation prompts, one per variant. */
  lemma Others11(c: Variants, text: string, query: string, result: string)
    requires Catalogue11(c)
    ensures var r := Get11(c, "INTENT_CLASSIFIER", map["text" := text], None);
      r.Ok? && |r.value| >= 1
      && forall i :: 0 <= i < |r.value| ==> r.value[i] == LitAt(c["INTENT_CLASSIFIER"][i], 0) + text + LitAt(c["INTENT_CLASSIFIER"][i], 2)
    ensures var r := Get11(c, "RESULT_TO_NL", map["query" := query, "result" := result], None);
      r.Ok? && |r.value| >= 1
      && forall i :: 0 <= i < |r.value| ==>
        r.value[i] == LitAt(c["RESULT_TO_NL"][i], 0) + query + LitAt(c["RESULT_TO_NL"][i], 2) + result + LitAt(c["RESULT_TO_NL"][i], 4)
  {
    var a1 := map["text" := text]["schema_section" := ""];
    forall i | 0 <= i < |c["INTENT_CLASSIFIER"]|
      ensures Format(c["INTENT_CLASSIFIER"][i], a1) == Ok(LitAt(c["INTENT_CLASSIFIER"][i], 0) + text + LitAt(c["INTENT_CLASSIFIER"][i], 2))
    {
      assert c["INTENT_CLASSIFIER"][i] in c["INTENT_CLASSIFIER"];
      FormatOne(c["INTENT_CLASSIFIER"][i], "text", a1);
    }
    var a2 := map["query" := query, "result" := result]["schema_section" := ""];
    forall i | 0 <= i < |c["RESULT_TO_NL"]|
      ensures Format(c["RESULT_TO_NL"][i], a2) == Ok(LitAt(c["RESULT_TO_NL"][i], 0) + query + LitAt(c["RESULT_TO_NL"][i], 2) + result + LitAt(c["RESULT_TO_NL"][i], 4))
    {
      assert c["RESULT_TO_NL"][i] in c["RESULT_TO_NL"];
      FormatTwo(c["RESULT_TO_NL"][i], "query", "result", a2);
    }
  }
}
