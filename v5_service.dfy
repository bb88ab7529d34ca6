/**
 * `MCRService` of v5.1.1: one LLM call per translation, clauses taken line
 * by line, new clauses compared with the raw lines of the knowledge base,
 * and the engine's answer explained as a plain "Yes" or "No". The
 * `update_kb` route is a method of the service here.
 */
module V5Service {
  import opened Errors
  import opened PyStr
  import opened Templates
  import opened Prompts
  import opened Reasoning
  import opened Shaping
  import opened KbText
  import opened CleanText
  import opened Sessions
  import opened Llm

  datatype AssertResponse = AssertResponse(addedFacts: seq<string>, knowledgeBase: string)

  datatype QueryResponse = QueryResponse(queryProlog: string, result: Outcome, answer: string)

  /** The explanation style every query asks for. */
  const Style := "a clear and concise explanation"

  /** `_extract_prolog`: the kept lines, each ending with `.`. */
  function ExtractProlog(text: string): (r: seq<string>)
    ensures |r| <= |Split(text, '\n')|
    ensures forall c :: c in r ==> CleanLine(c) && EndsWith(c, '.')
  {
    ExtractEnding(text, {'.'})
  }

  /**
   * `assert_into_session` given the session lookup, the catalogue and the
   * model's answers from call `base` on: the response, and the prompts sent.
   */
  function AssertPath(lookup: Result<string>, text: string, c: Catalogue, replies: Replies, base: nat): (r: (Result<AssertResponse>, seq<string>))
  {
    if lookup.Err? then (Err(lookup.error), [])
    else
      var prompt := Get5(c, "NL_TO_RULES", map["text" := text]);
      if prompt.Err? then (Err(prompt.error), [])
      else
        var reply := replies(base, prompt.value);
        if reply.Err? then (Err(reply.error), [prompt.value])
        else
          var (added, kb) := AddRaw(lookup.value, ExtractProlog(reply.value));
          (Ok(AssertResponse(added, kb)), [prompt.value])
  }

  /** `run_query`: the response, and the prompts sent. */
  function QueryPath(lookup: Result<string>, query: string, c: Catalogue, replies: Replies, base: nat,
                     engine: (string, string) -> EngineReply): (r: (Result<QueryResponse>, seq<string>))
  {
    if lookup.Err? then (Err(lookup.error), [])
    else
      var p1 := Get5(c, "NL_TO_QUERY", map["query" := query]);
      if p1.Err? then (Err(p1.error), [])
      else
        var raw := replies(base, p1.value);
        if raw.Err? then (Err(raw.error), [p1.value])
        else
          var (r, sent) := Explain(lookup.value, Goal(raw.value), c, replies, base + 1, engine);
          (r, [p1.value] + sent)
  }

  /** A successful assert, unfolded. */
  lemma AssertPathOk(kb: string, text: string, c: Catalogue, replies: Replies, base: nat, prompt: string)
    requires Get5(c, "NL_TO_RULES", map["text" := text]) == Ok(prompt) && replies(base, prompt).Ok?
    ensures var (added, kb') := AddRaw(kb, ExtractProlog(replies(base, prompt).value));
      AssertPath(Ok(kb), text, c, replies, base) == (Ok(AssertResponse(added, kb')), [prompt])
  {
  }

  /** `run_query` once the goal is known, unfolded. */
  lemma QueryPathSplit(lookup: Result<string>, query: string, c: Catalogue, replies: Replies, base: nat,
                       engine: (string, string) -> EngineReply, goal: string)
    requires lookup.Ok? && Get5(c, "NL_TO_QUERY", map["query" := query]).Ok?
    requires var p1 := Get5(c, "NL_TO_QUERY", map["query" := query]).value;
      replies(base, p1).Ok? && goal == Goal(replies(base, p1).value)
    ensures var p1 := Get5(c, "NL_TO_QUERY", map["query" := query]).value;
      var rest := Explain(lookup.value, goal, c, replies, base + 1, engine);
      QueryPath(lookup, query, c, replies, base, engine) == (rest.0, [p1] + rest.1)
  {
  }

  /** The explanation step when the engine, the template and the model all succeed, unfolded. */
  lemma ExplainOk(kb: string, goal: string, c: Catalogue, replies: Replies, base: nat,
                  engine: (string, string) -> EngineReply, p2: string)
    requires Normalise(engine(kb, goal), Timeout5).Ok?
    requires var result := Normalise(engine(kb, goal), Timeout5).value;
      Get5(c, "RESULT_TO_NL", map["query" := goal, "result" := Json(Shape5(result)), "style" := Style]) == Ok(p2)
    requires replies(base, p2).Ok?
    ensures Explain(kb, goal, c, replies, base, engine)
      == (Ok(QueryResponse(goal, Normalise(engine(kb, goal), Timeout5).value, replies(base, p2).value)), [p2])
  {
  }

  /** The part of `run_query` after the goal is known: engine, shaping, explanation. */
  function Explain(kb: string, goal: string, c: Catalogue, replies: Replies, base: nat,
                   engine: (string, string) -> EngineReply): (r: (Result<QueryResponse>, seq<string>))
  {
    var result := Normalise(engine(kb, goal), Timeout5);
    if result.Err? then (Err(result.error), [])
    else
      var p2 := Get5(c, "RESULT_TO_NL", map["query" := goal, "result" := Json(Shape5(result.value)), "style" := Style]);
      if p2.Err? then (Err(p2.error), [])
      else
        var answer := replies(base, p2.value);
        if answer.Err? then (Err(answer.error), [p2.value])
        else (Ok(QueryResponse(goal, result.value, answer.value)), [p2.value])
  }

  class MCRService {
    const llm: LlmProvider
    const store: SessionStore
    /** The engine's reply to a goal over a knowledge-base text. */
    const engine: (string, string) -> EngineReply
    /** The validator: `None` for a valid text, otherwise its error message. */
    const validate: string -> Option<string>
    const prompts: Catalogue

    constructor (llm: LlmProvider, store: SessionStore, engine: (string, string) -> EngineReply,
                 validate: string -> Option<string>, prompts: Catalogue)
      ensures this.llm == llm && this.store == store && this.engine == engine
      ensures this.validate == validate && this.prompts == prompts
    {
      this.llm := llm;
      this.store := store;
      this.engine := engine;
      this.validate := validate;
      this.prompts := prompts;
    }

    /**
     * `assert_into_session`: the session is saved once, with the new text,
     * exactly when something was added.
     */
    method AssertIntoSession(id: string, text: string) returns (r: Result<AssertResponse>)
      modifies llm, store
      ensures var spec := AssertPath(old(store.GetSession(id)), text, prompts, llm.replies, old(|llm.sent|));
        r == spec.0 && llm.sent == old(llm.sent) + spec.1
      ensures r.Ok? && r.value.addedFacts != [] ==>
        store.sessions == old(store.sessions)[id := r.value.knowledgeBase]
        && store.saved == old(store.saved) + [(id, r.value.knowledgeBase)]
      ensures r.Err? || r.value.addedFacts == [] ==> store.sessions == old(store.sessions) && store.saved == old(store.saved)
    {
      var lookup := store.GetSession(id);
      if lookup.Err? {
        return Err(lookup.error);
      }
      var prompt := Get5(prompts, "NL_TO_RULES", map["text" := text]);
      if prompt.Err? {
        return Err(prompt.error);
      }
      var reply := llm.Generate(prompt.value);
      if reply.Err? {
        return Err(reply.error);
      }
      var newFacts := ExtractProlog(reply.value);
      var (added, kb) := AddRaw(lookup.value, newFacts);
      if added != [] {
        store.SaveSession(id, kb);
      }
      r := Ok(AssertResponse(added, kb));
    }

    /** `run_query`: two model calls around one engine query; nothing is saved. */
    method RunQuery(id: string, query: string) returns (r: Result<QueryResponse>)
      modifies llm
      ensures var spec := QueryPath(store.GetSession(id), query, prompts, llm.replies, old(|llm.sent|), engine);
        r == spec.0 && llm.sent == old(llm.sent) + spec.1
    {
      var lookup := store.GetSession(id);
      if lookup.Err? {
        return Err(lookup.error);
      }
      var p1 := Get5(prompts, "NL_TO_QUERY", map["query" := query]);
      if p1.Err? {
        return Err(p1.error);
      }
      var raw := llm.Generate(p1.value);
      if raw.Err? {
        return Err(raw.error);
      }
      var goal := Goal(raw.value);
      QueryPathSplit(lookup, query, prompts, llm.replies, old(|llm.sent|), engine, goal);
      r := ExplainGoal(lookup.value, goal);
    }

    method ExplainGoal(kb: string, goal: string) returns (r: Result<QueryResponse>)
      modifies llm
      ensures var spec := Explain(kb, goal, prompts, llm.replies, old(|llm.sent|), engine);
        r == spec.0 && llm.sent == old(llm.sent) + spec.1
    {
      var result := Normalise(engine(kb, goal), Timeout5);
      if result.Err? {
        return Err(result.error);
      }
      var p2 := Get5(prompts, "RESULT_TO_NL", map["query" := goal, "result" := Json(Shape5(result.value)), "style" := Style]);
      if p2.Err? {
        return Err(p2.error);
      }
      var answer := llm.Generate(p2.value);
      if answer.Err? {
        return Err(answer.error);
      }
      r := Ok(QueryResponse(goal, result.value, answer.value));
    }

    /** `update_kb`: validate, then replace the text and save; a rejected text leaves the store as it was. */
    method UpdateKb(id: string, kb: string) returns (r: Result<string>)
      modifies store
      ensures r == UpdateOutcome(old(store.GetSession(id)), validate(kb), "Knowledge base updated.")
      ensures r.Ok? ==> store.sessions == old(store.sessions)[id := kb] && store.saved == old(store.saved) + [(id, kb)]
      ensures r.Err? ==> store.sessions == old(store.sessions) && store.saved == old(store.saved)
    {
      var lookup := store.GetSession(id);
      if lookup.Err? {
        return Err(lookup.error);
      }
      var verdict := validate(kb);
      if verdict.Some? {
        return Err(ValidationError("KB validation failed: " + verdict.value));
      }
      store.SaveSession(id, kb);
      r := Ok("Knowledge base updated.");
    }
  }

  // ---------------------------------------------------------------------------
  // Properties of the two paths
  // ---------------------------------------------------------------------------

  /** An unknown session fails with `NotFoundError` before the model is asked anything. */
  lemma UnknownSession(id: string, text: string, query: string, c: Catalogue, replies: Replies, base: nat,
                       engine: (string, string) -> EngineReply)
    ensures AssertPath(Err(NotFoundError("Session '" + id + "' not found.")), text, c, replies, base)
      == (Err(NotFoundError("Session '" + id + "' not found.")), [])
    ensures QueryPath(Err(NotFoundError("Session '" + id + "' not found.")), query, c, replies, base, engine)
      == (Err(NotFoundError("Session '" + id + "' not found.")), [])
  {
  }

  /**
   * With the v5 catalogue, an assert sends exactly one prompt, the rules
   * template around the user's text, and adds the extracted clauses that
   * are not yet lines of the text; afterwards every clause is a line.
   */
  lemma AssertSends(kb: string, text: string, c: Catalogue, replies: Replies, base: nat)
    requires Catalogue5(c)
    ensures var t := c["NL_TO_RULES"];
      var prompt := t[0].text + text + t[2].text;
      var (r, sent) := AssertPath(Ok(kb), text, c, replies, base);
      sent == [prompt]
      && (replies(base, prompt).Err? ==> r == Err(replies(base, prompt).error))
      && (replies(base, prompt).Ok? ==>
            r.Ok?
            && r.value.addedFacts == NotIn(ExtractProlog(replies(base, prompt).value), RawLines(kb))
            && r.value.knowledgeBase == Appended(kb, r.value.addedFacts)
            && (forall f :: f in r.value.addedFacts <==> f in ExtractProlog(replies(base, prompt).value) && f !in RawLines(kb))
            && (r.value.addedFacts == [] ==> r.value.knowledgeBase == kb))
  {
    Prompts5(c, text, "");
  }

  /**
   * Asserting again, with the model producing the same one-line clauses,
   * adds nothing and leaves the text as the first assert left it.
   */
  lemma AssertTwice(kb: string, text: string, c: Catalogue, replies: Replies, base: nat, again: nat)
    requires Catalogue5(c)
    requires AssertPath(Ok(kb), text, c, replies, base).0.Ok?
    requires var prompt := AssertPath(Ok(kb), text, c, replies, base).1[0];
      replies(again, prompt) == replies(base, prompt)
      && forall f :: f in ExtractProlog(replies(base, prompt).value) ==> NoLineBreak(f)
    ensures var first := AssertPath(Ok(kb), text, c, replies, base).0.value;
      AssertPath(Ok(first.knowledgeBase), text, c, replies, again).0 == Ok(AssertResponse([], first.knowledgeBase))
  {
    Prompts5(c, text, "");
    var t := c["NL_TO_RULES"];
    var prompt := t[0].text + text + t[2].text;
    assert replies(base, prompt).Ok?;
    AssertPathOk(kb, text, c, replies, base, prompt);
    var clauses := ExtractProlog(replies(base, prompt).value);
    forall f | f in clauses ensures KbText.OneLine(f) {
      assert CleanLine(f);
    }
    AddRawTwice(kb, clauses);
    var first := AddRaw(kb, clauses);
    AssertPathOk(first.1, text, c, replies, again, prompt);
  }

  /**
   * A successful query sends the query template around the user's
   * question, then the explanation template with the style, the goal
   * (no trailing `.`) and `"Yes"` exactly when the engine's answer is truthy.
   */
  lemma QuerySends(kb: string, query: string, c: Catalogue, replies: Replies, base: nat,
                   engine: (string, string) -> EngineReply)
    requires Catalogue5(c)
    requires QueryPath(Ok(kb), query, c, replies, base, engine).0.Ok?
    ensures var (r, sent) := QueryPath(Ok(kb), query, c, replies, base, engine);
      var t := c["NL_TO_QUERY"];
      var u := c["RESULT_TO_NL"];
      var shaped := if Truthy(r.value.result) then "\"Yes\"" else "\"No\"";
      |sent| == 2
      && sent[0] == t[0].text + query + t[2].text
      && !EndsWith(r.value.queryProlog, '.')
      && sent[1] == u[0].text + Style + u[2].text + r.value.queryProlog + u[4].text + shaped + u[6].text
      && replies(base + 1, sent[1]) == Ok(r.value.answer)
  {
    Prompts5(c, "", query);
    var t := c["NL_TO_QUERY"];
    var p1 := t[0].text + query + t[2].text;
    assert replies(base, p1).Ok?;
    var goal := Goal(replies(base, p1).value);
    GoalTrimsDots(replies(base, p1).value);
    QueryPathSplit(Ok(kb), query, c, replies, base, engine, goal);
    var result := Normalise(engine(kb, goal), Timeout5);
    assert result.Ok?;
    var shaped := Json(Shape5(result.value));
    Answer5(c, Style, goal, shaped);
    var u := c["RESULT_TO_NL"];
    var p2 := u[0].text + Style + u[2].text + goal + u[4].text + shaped + u[6].text;
    assert replies(base + 1, p2).Ok?;
    ExplainOk(kb, goal, c, replies, base + 1, engine, p2);
    Explained5(result.value);
  }
}
