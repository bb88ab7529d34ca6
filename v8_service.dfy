/**
 * `MCRService` of v8.0.0: v5's single-call translation with the knowledge
 * base's schema in the translation prompts, `:` accepted as a clause end,
 * the extracted clauses returned with the response, and `True` / `False`
 * explained as `"true"` / `"No"` while any other result is passed on as it
 * is. The `update_kb` route is a method of the service here.
 */
module V8Service {
  import opened Errors
  import opened PyStr
  import opened Prompts
  import opened Reasoning
  import opened Shaping
  import opened KbText
  import opened CleanText
  import opened Sessions
  import opened Llm
  import V8Schema

  datatype AssertResponse = AssertResponse(addedFacts: seq<string>, knowledgeBase: string, translatedProlog: seq<string>)

  datatype QueryResponse = QueryResponse(queryProlog: string, result: Outcome, answer: string)

  /** `_extract_prolog`: the kept lines, each ending with `.` or `:`. */
  function ExtractProlog(text: string): (r: seq<string>)
    ensures |r| <= |Split(text, '\n')|
    ensures forall c :: c in r ==> CleanLine(c) && (EndsWith(c, '.') || EndsWith(c, ':'))
  {
    ExtractEnding(text, {'.', ':'})
  }

  /**
   * `assert_into_session` given the session lookup, the catalogue and the
   * model's answers from call `base` on: the response, and the prompts sent.
   */
  function AssertPath(lookup: Result<string>, text: string, c: Catalogue, replies: Replies, base: nat): (r: (Result<AssertResponse>, seq<string>))
  {
    if lookup.Err? then (Err(lookup.error), [])
    else
      var prompt := Get8(c, "NL_TO_RULES", map["text" := text], Some(V8Schema.Schema(lookup.value)));
      if prompt.Err? then (Err(prompt.error), [])
      else
        var reply := replies(base, prompt.value);
        if reply.Err? then (Err(reply.error), [prompt.value])
        else
          var facts := ExtractProlog(reply.value);
          var (added, kb) := AddRaw(lookup.value, facts);
          (Ok(AssertResponse(added, kb, facts)), [prompt.value])
  }

  /** `run_query`: the response, and the prompts sent. */
  function QueryPath(lookup: Result<string>, query: string, c: Catalogue, replies: Replies, base: nat,
                     engine: (string, string) -> EngineReply): (r: (Result<QueryResponse>, seq<string>))
  {
    if lookup.Err? then (Err(lookup.error), [])
    else Ask(lookup.value, V8Schema.Schema(lookup.value), query, c, replies, base, engine)
  }

  /** The part of `run_query` after the schema is known: the goal from the model, then the explanation. */
  function Ask(kb: string, schema: seq<string>, query: string, c: Catalogue, replies: Replies, base: nat,
               engine: (string, string) -> EngineReply): (r: (Result<QueryResponse>, seq<string>))
  {
    var p1 := Get8(c, "NL_TO_QUERY", map["query" := query], Some(schema));
    if p1.Err? then (Err(p1.error), [])
    else
      var raw := replies(base, p1.value);
      if raw.Err? then (Err(raw.error), [p1.value])
      else
        var (r, sent) := Explain(kb, Goal(raw.value), c, replies, base + 1, engine);
        (r, [p1.value] + sent)
  }

  /** The part of `run_query` after the goal is known: engine, shaping, explanation. */
  function Explain(kb: string, goal: string, c: Catalogue, replies: Replies, base: nat,
                   engine: (string, string) -> EngineReply): (r: (Result<QueryResponse>, seq<string>))
  {
    var result := Normalise(engine(kb, goal), Timeout8);
    if result.Err? then (Err(result.error), [])
    else
      var p2 := Get8(c, "RESULT_TO_NL", map["query" := goal, "result" := Json(Shape8(result.value))], None);
      if p2.Err? then (Err(p2.error), [])
      else
        var answer := replies(base, p2.value);
        if answer.Err? then (Err(answer.error), [p2.value])
        else (Ok(QueryResponse(goal, result.value, answer.value)), [p2.value])
  }

  /** A successful assert, unfolded. */
  lemma AssertPathOk(kb: string, text: string, c: Catalogue, replies: Replies, base: nat, prompt: string)
    requires Get8(c, "NL_TO_RULES", map["text" := text], Some(V8Schema.Schema(kb))) == Ok(prompt)
    requires replies(base, prompt).Ok?
    ensures var facts := ExtractProlog(replies(base, prompt).value);
      var (added, kb') := AddRaw(kb, facts);
      AssertPath(Ok(kb), text, c, replies, base) == (Ok(AssertResponse(added, kb', facts)), [prompt])
  {
  }

  /** `run_query` once the goal is known, unfolded. */
  lemma AskSplit(kb: string, schema: seq<string>, query: string, c: Catalogue, replies: Replies, base: nat,
                 engine: (string, string) -> EngineReply, p1: string, goal: string)
    requires Get8(c, "NL_TO_QUERY", map["query" := query], Some(schema)) == Ok(p1)
    requires replies(base, p1).Ok? && goal == Goal(replies(base, p1).value)
    ensures var rest := Explain(kb, goal, c, replies, base + 1, engine);
      Ask(kb, schema, query, c, replies, base, engine) == (rest.0, [p1] + rest.1)
  {
  }

  /** The explanation step when the engine, the template and the model all succeed, unfolded. */
  lemma ExplainOk(kb: string, goal: string, c: Catalogue, replies: Replies, base: nat,
                  engine: (string, string) -> EngineReply, p2: string)
    requires Normalise(engine(kb, goal), Timeout8).Ok?
    requires var result := Normalise(engine(kb, goal), Timeout8).value;
      Get8(c, "RESULT_TO_NL", map["query" := goal, "result" := Json(Shape8(result))], None) == Ok(p2)
    requires replies(base, p2).Ok?
    ensures Explain(kb, goal, c, replies, base, engine)
      == (Ok(QueryResponse(goal, Normalise(engine(kb, goal), Timeout8).value, replies(base, p2).value)), [p2])
  {
  }

  class MCRService {
    const llm: LlmProvider
    const store: SessionStore
    /** The engine's reply to a goal over a knowledge-base text. */
    const engine: (string, string) -> EngineReply
    /** The validator: `None` for a valid text, otherwise its error message. */
    const validate: string -> Option<string>
    const prompts: Catalogue

    constructor (llm: LlmProvider, store: SessionStore, engine: (string, string) -> EngineReply,
                 validate: string -> Option<string>, prompts: Catalogue)
      ensures this.llm == llm && this.store == store && this.engine == engine
      ensures this.validate == validate && this.prompts == prompts
    {
      this.llm := llm;
      this.store := store;
      this.engine := engine;
      this.validate := validate;
      this.prompts := prompts;
    }

    /**
     * `assert_into_session`: the session is saved once, with the new text,
     * exactly when something was added.
     */
    method AssertIntoSession(id: string, text: string) returns (r: Result<AssertResponse>)
      modifies llm, store
      ensures var spec := AssertPath(old(store.GetSession(id)), text, prompts, llm.replies, old(|llm.sent|));
        r == spec.0 && llm.sent == old(llm.sent) + spec.1
      ensures r.Ok? && r.value.addedFacts != [] ==>
        store.sessions == old(store.sessions)[id := r.value.knowledgeBase]
        && store.saved == old(store.saved) + [(id, r.value.knowledgeBase)]
      ensures r.Err? || r.value.addedFacts == [] ==> store.sessions == old(store.sessions) && store.saved == old(store.saved)
    {
      var lookup := store.GetSession(id);
      if lookup.Err? {
        return Err(lookup.error);
      }
      var schema := V8Schema.GetKbSchema(lookup.value);
      var prompt := Get8(prompts, "NL_TO_RULES", map["text" := text], Some(schema));
      if prompt.Err? {
        return Err(prompt.error);
      }
      var reply := llm.Generate(prompt.value);
      if reply.Err? {
        return Err(reply.error);
      }
      var newFacts := ExtractProlog(reply.value);
      var (added, kb) := AddRaw(lookup.value, newFacts);
      if added != [] {
        store.SaveSession(id, kb);
      }
      r := Ok(AssertResponse(added, kb, newFacts));
    }

    /** `run_query`: two model calls around one engine query; nothing is saved. */
    method RunQuery(id: string, query: string) returns (r: Result<QueryResponse>)
      modifies llm
      ensures var spec := QueryPath(store.GetSession(id), query, prompts, llm.replies, old(|llm.sent|), engine);
        r == spec.0 && llm.sent == old(llm.sent) + spec.1
    {
      var lookup := store.GetSession(id);
      if lookup.Err? {
        return Err(lookup.error);
      }
      var schema := V8Schema.GetKbSchema(lookup.value);
      r := AskWith(lookup.value, schema, query);
    }

    method AskWith(kb: string, schema: seq<string>, query: string) returns (r: Result<QueryResponse>)
      modifies llm
      ensures var spec := Ask(kb, schema, query, prompts, llm.replies, old(|llm.sent|), engine);
        r == spec.0 && llm.sent == old(llm.sent) + spec.1
    {
      var p1 := Get8(prompts, "NL_TO_QUERY", map["query" := query], Some(schema));
      if p1.Err? {
        return Err(p1.error);
      }
      var raw := llm.Generate(p1.value);
      if raw.Err? {
        return Err(raw.error);
      }
      var goal := Goal(raw.value);
      AskSplit(kb, schema, query, prompts, llm.replies, old(|llm.sent|), engine, p1.value, goal);
      ghost var asked := llm.sent;
      r := ExplainGoal(kb, goal);
      ghost var rest := Explain(kb, goal, prompts, llm.replies, |asked|, engine).1;
      assert llm.sent == asked + rest;
      Assoc3(old(llm.sent), [p1.value], rest);
    }

    method ExplainGoal(kb: string, goal: string) returns (r: Result<QueryResponse>)
      modifies llm
      ensures var spec := Explain(kb, goal, prompts, llm.replies, old(|llm.sent|), engine);
        r == spec.0 && llm.sent == old(llm.sent) + spec.1
    {
      var result := Normalise(engine(kb, goal), Timeout8);
      if result.Err? {
        return Err(result.error);
      }
      var p2 := Get8(prompts, "RESULT_TO_NL", map["query" := goal, "result" := Json(Shape8(result.value))], None);
      if p2.Err? {
        return Err(p2.error);
      }
      var answer := llm.Generate(p2.value);
      if answer.Err? {
        return Err(answer.error);
      }
      r := Ok(QueryResponse(goal, result.value, answer.value));
    }

    /** `update_kb`: validate, then replace the text and save; a rejected text leaves the store as it was. */
    method UpdateKb(id: string, kb: string) returns (r: Result<string>)
      modifies store
      ensures r == UpdateOutcome(old(store.GetSession(id)), validate(kb), "Knowledge base updated.")
      ensures r.Ok? ==> store.sessions == old(store.sessions)[id := kb] && store.saved == old(store.saved) + [(id, kb)]
      ensures r.Err? ==> store.sessions == old(store.sessions) && store.saved == old(store.saved)
    {
      var lookup := store.GetSession(id);
      if lookup.Err? {
        return Err(lookup.error);
      }
      var verdict := validate(kb);
      if verdict.Some? {
        return Err(ValidationError("KB validation failed: " + verdict.value));
      }
      store.SaveSession(id, kb);
      r := Ok("Knowledge base updated.");
    }
  }

  // ---------------------------------------------------------------------------
  // Properties of the two paths
  // ---------------------------------------------------------------------------

  /**
   * v8 keeps a line that ends with `:` as it is where v5 appends a `.`;
   * every other kept line comes out of both extractors the same.
   */
  lemma ColonEndsDiffer(text: string)
    ensures var v5 := ExtractEnding(text, {'.'});
      var v8 := ExtractProlog(text);
      |v5| == |v8|
      && forall i :: 0 <= i < |v8| ==>
        if EndsWith(v8[i], ':') then v5[i] == v8[i] + "." else v5[i] == v8[i]
  {
    var ls := CleanLines(text);
    var v5 := ExtractEnding(text, {'.'});
    var v8 := ExtractProlog(text);
    assert v5 == TerminateAll(ls, {'.'}) && v8 == TerminateAll(ls, {'.', ':'});
    forall i | 0 <= i < |v8|
      ensures if EndsWith(v8[i], ':') then v5[i] == v8[i] + "." else v5[i] == v8[i]
    {
      assert ls[i] in ls;
      TerminateColon(ls[i]);
    }
  }

  /** One kept line under the two sets of terminators. */
  lemma TerminateColon(l: string)
    requires CleanLine(l)
    ensures var v5 := Terminate(l, {'.'});
      var v8 := Terminate(l, {'.', ':'});
      if EndsWith(v8, ':') then v5 == v8 + "." else v5 == v8
  {
  }

  /**
   * With the v8 catalogue, an assert sends exactly one prompt: the rules
   * template with the schema section of the session's text and the user's
   * text; the response returns every extracted clause and adds those that
   * are not yet lines of the text.
   */
  lemma AssertSends(kb: string, text: string, c: Catalogue, replies: Replies, base: nat)
    requires Catalogue8(c)
    ensures var t := c["NL_TO_RULES"];
      var prompt := t[0].text + SchemaSection(SchemaHeader8, Some(V8Schema.Schema(kb))) + t[2].text + text + t[4].text;
      var (r, sent) := AssertPath(Ok(kb), text, c, replies, base);
      sent == [prompt]
      && (replies(base, prompt).Err? ==> r == Err(replies(base, prompt).error))
      && (replies(base, prompt).Ok? ==>
            r.Ok?
            && r.value.translatedProlog == ExtractProlog(replies(base, prompt).value)
            && r.value.addedFacts == NotIn(r.value.translatedProlog, RawLines(kb))
            && r.value.knowledgeBase == Appended(kb, r.value.addedFacts)
            && (forall f :: f in r.value.addedFacts <==> f in r.value.translatedProlog && f !in RawLines(kb))
            && (r.value.addedFacts == [] ==> r.value.knowledgeBase == kb))
  {
    Prompts8(c, "NL_TO_RULES", "text", text, Some(V8Schema.Schema(kb)));
    var t := c["NL_TO_RULES"];
    var prompt := t[0].text + SchemaSection(SchemaHeader8, Some(V8Schema.Schema(kb))) + t[2].text + text + t[4].text;
    if replies(base, prompt).Ok? {
      AssertPathOk(kb, text, c, replies, base, prompt);
    }
  }

  /**
   * Asserting again, with the model producing the same one-line clauses,
   * adds nothing and leaves the text as the first assert left it.
   */
  lemma AssertTwice(kb: string, text: string, c: Catalogue, replies: Replies, base: nat, again: nat, prompt: string)
    requires Get8(c, "NL_TO_RULES", map["text" := text], Some(V8Schema.Schema(kb))) == Ok(prompt)
    requires replies(base, prompt).Ok?
    requires forall f :: f in ExtractProlog(replies(base, prompt).value) ==> NoLineBreak(f)
    ensures var first := AssertPath(Ok(kb), text, c, replies, base).0.value;
      var second := Get8(c, "NL_TO_RULES", map["text" := text], Some(V8Schema.Schema(first.knowledgeBase)));
      second.Ok? && replies(again, second.value) == replies(base, prompt) ==>
        AssertPath(Ok(first.knowledgeBase), text, c, replies, again).0
        == Ok(AssertResponse([], first.knowledgeBase, first.translatedProlog))
  {
    AssertPathOk(kb, text, c, replies, base, prompt);
    var clauses := ExtractProlog(replies(base, prompt).value);
    forall f | f in clauses ensures KbText.OneLine(f) {
      assert CleanLine(f);
    }
    AddRawTwice(kb, clauses);
    var first := AddRaw(kb, clauses);
    var second := Get8(c, "NL_TO_RULES", map["text" := text], Some(V8Schema.Schema(first.1)));
    if second.Ok? && replies(again, second.value) == replies(base, prompt) {
      AssertPathOk(first.1, text, c, replies, again, second.value);
    }
  }

  /**
   * A successful query sends the query template with the schema section
   * and the user's question, then the explanation template (no schema)
   * with the goal, which has no trailing `.`, and the shaped result.
   */
  lemma QuerySends(kb: string, query: string, c: Catalogue, replies: Replies, base: nat,
                   engine: (string, string) -> EngineReply)
    requires Catalogue8(c)
    requires QueryPath(Ok(kb), query, c, replies, base, engine).0.Ok?
    ensures var (r, sent) := QueryPath(Ok(kb), query, c, replies, base, engine);
      var t := c["NL_TO_QUERY"];
      var u := c["RESULT_TO_NL"];
      |sent| == 2
      && sent[0] == t[0].text + SchemaSection(SchemaHeader8, Some(V8Schema.Schema(kb))) + t[2].text + query + t[4].text
      && !EndsWith(r.value.queryProlog, '.')
      && sent[1] == u[0].text + r.value.queryProlog + u[2].text + Json(Shape8(r.value.result)) + u[4].text
      && replies(base + 1, sent[1]) == Ok(r.value.answer)
  {
    Prompts8(c, "NL_TO_QUERY", "query", query, Some(V8Schema.Schema(kb)));
    var t := c["NL_TO_QUERY"];
    var p1 := t[0].text + SchemaSection(SchemaHeader8, Some(V8Schema.Schema(kb))) + t[2].text + query + t[4].text;
    assert replies(base, p1).Ok?;
    var goal := Goal(replies(base, p1).value);
    GoalTrimsDots(replies(base, p1).value);
    AskSplit(kb, V8Schema.Schema(kb), query, c, replies, base, engine, p1, goal);
    ExplainSends(kb, goal, c, replies, base + 1, engine);
  }

  /** A successful explanation sends one prompt: the goal and the shaped result in the template. */
  lemma ExplainSends(kb: string, goal: string, c: Catalogue, replies: Replies, base: nat,
                     engine: (string, string) -> EngineReply)
    requires Catalogue8(c)
    requires Explain(kb, goal, c, replies, base, engine).0.Ok?
    ensures var (r, sent) := Explain(kb, goal, c, replies, base, engine);
      var u := c["RESULT_TO_NL"];
      sent == [u[0].text + goal + u[2].text + Json(Shape8(r.value.result)) + u[4].text]
      && r.value.queryProlog == goal
      && replies(base, sent[0]) == Ok(r.value.answer)
  {
    var result := Normalise(engine(kb, goal), Timeout8);
    assert result.Ok?;
    var shaped := Json(Shape8(result.value));
    Answer8(c, goal, shaped);
    var u := c["RESULT_TO_NL"];
    var p2 := u[0].text + goal + u[2].text + shaped + u[4].text;
    assert replies(base, p2).Ok?;
    ExplainOk(kb, goal, c, replies, base, engine, p2);
  }
}
