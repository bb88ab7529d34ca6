/**
 * `MCRService` of v11.0.0: every model call goes through the prompt chain
 * (`_run_prompt_chain`), an assert first classifies the text as a rule or
 * a fact and then translates it with the matching schema-aware template,
 * clauses are found with the clause pattern and compared with the stripped
 * lines of the knowledge base, and a query's goal and the engine's answer
 * are checked before the explanation is asked for.
 */
module V11Service {
  import opened Errors
  import opened PyStr
  import opened Templates
  import opened Prompts
  import opened Reasoning
  import opened Shaping
  import opened KbText
  import opened Sessions
  import opened Llm
  import opened PromptChain
  import opened V11Extract
  import V11Schema

  datatype AssertResponse = AssertResponse(addedFacts: seq<string>, knowledgeBase: string, translatedProlog: seq<string>, intent: string)

  datatype QueryResponse = QueryResponse(queryProlog: string, result: Outcome, answer: string)

  /**
   * `_run_prompt_chain(name, **args)` after the prompts `sent` so far: the
   * variants are rendered first (a template that misses an argument raises
   * before any call), then tried in order. The result, and every prompt sent
   * once the chain is over.
   */
  function RunChain(c: Variants, name: string, args: map<string, string>, schema: Option<seq<string>>,
                    replies: Replies, sent: seq<string>): (r: (Result<string>, seq<string>))
  {
    var prompts := Get11(c, name, args, schema);
    if prompts.Err? then (Err(prompts.error), sent)
    else
      var (outcome, told) := Chain(name, prompts.value, replies, |sent|);
      (outcome, sent + told)
  }

  /** `"RULE" if "RULE" in raw.upper() else "FACT"` */
  function Intent(raw: string): string {
    if Contains(Upper(raw), "RULE") then "RULE" else "FACT"
  }

  /** The translation template an intent selects. */
  function Translator(intent: string): string {
    if intent == "RULE" then "NL_TO_RULES" else "NL_TO_FACTS"
  }

  /**
   * `assert_into_session` given the session lookup, the catalogue, the
   * model's answers and the prompts sent before: the response, and every
   * prompt sent once it is over.
   */
  function AssertPath(lookup: Result<string>, text: string, c: Variants, replies: Replies, sent: seq<string>): (r: (Result<AssertResponse>, seq<string>))
  {
    if lookup.Err? then (Err(lookup.error), sent)
    else Translate(lookup.value, V11Schema.Schema(lookup.value), text, c, replies, sent)
  }

  /** The part of `assert_into_session` after the schema is known: classify, then translate. */
  function Translate(kb: string, schema: seq<string>, text: string, c: Variants, replies: Replies, sent: seq<string>): (r: (Result<AssertResponse>, seq<string>))
  {
    var (raw, sent') := RunChain(c, "INTENT_CLASSIFIER", map["text" := text], None, replies, sent);
    Translated(kb, schema, text, raw, c, replies, sent')
  }

  /** The part of `assert_into_session` after the classifier answered: translate, extract, add. */
  function Translated(kb: string, schema: seq<string>, text: string, raw: Result<string>, c: Variants, replies: Replies, sent: seq<string>): (r: (Result<AssertResponse>, seq<string>))
  {
    if raw.Err? then (Err(raw.error), sent)
    else
      var intent := Intent(raw.value);
      var (answer, sent') := RunChain(c, Translator(intent), map["text" := text], Some(schema), replies, sent);
      if answer.Err? then (Err(answer.error), sent')
      else
        var clauses := Extract(answer.value);
        if clauses == [] then (Err(ProviderError("LLM failed to generate valid Prolog code.")), sent')
        else
          var (added, kb') := AddStripped(kb, clauses);
          (Ok(AssertResponse(added, kb', clauses, intent)), sent')
  }

  /** `run_query`: the response, and every prompt sent once it is over. */
  function QueryPath(lookup: Result<string>, query: string, c: Variants, replies: Replies, sent: seq<string>,
                     engine: (string, string) -> EngineReply): (r: (Result<QueryResponse>, seq<string>))
  {
    if lookup.Err? then (Err(lookup.error), sent)
    else Ask(lookup.value, V11Schema.Schema(lookup.value), query, c, replies, sent, engine)
  }

  /** The part of `run_query` after the schema is known: the goal from the model, then the rest. */
  function Ask(kb: string, schema: seq<string>, query: string, c: Variants, replies: Replies, sent: seq<string>,
               engine: (string, string) -> EngineReply): (r: (Result<QueryResponse>, seq<string>))
  {
    var (raw, sent') := RunChain(c, "NL_TO_QUERY", map["query" := query], Some(schema), replies, sent);
    Asked(kb, raw, c, replies, sent', engine)
  }

  /** The part of `run_query` after the model answered: the goal is checked, then explained. */
  function Asked(kb: string, raw: Result<string>, c: Variants, replies: Replies, sent: seq<string>,
                 engine: (string, string) -> EngineReply): (r: (Result<QueryResponse>, seq<string>))
  {
    if raw.Err? then (Err(raw.error), sent)
    else
      var goal := RStripChar(raw.value, '.');
      if goal == [] then (Err(ProviderError("LLM failed to generate a valid Prolog query.")), sent)
      else Explain(kb, goal, c, replies, sent, engine)
  }

  /** The part of `run_query` after the goal is known: engine, shaping, explanation. */
  function Explain(kb: string, goal: string, c: Variants, replies: Replies, sent: seq<string>,
                   engine: (string, string) -> EngineReply): (r: (Result<QueryResponse>, seq<string>))
  {
    var result := NormaliseFalsy(engine(kb, goal), Timeout11);
    if result.Err? then (Err(result.error), sent)
    else
      var (answer, sent') := RunChain(c, "RESULT_TO_NL", map["query" := goal, "result" := Json(Shape11(result.value))], None, replies, sent);
      if answer.Err? then (Err(answer.error), sent')
      else (Ok(QueryResponse(goal, result.value, answer.value)), sent')
  }

  class MCRService {
    const llm: LlmProvider
    const store: SessionStore
    /** The engine's reply to a goal over a knowledge-base text. */
    const engine: (string, string) -> EngineReply
    /** The validator: `None` for a valid text, otherwise its error message. */
    const validate: string -> Option<string>
    const prompts: Variants

    constructor (llm: LlmProvider, store: SessionStore, engine: (string, string) -> EngineReply,
                 validate: string -> Option<string>, prompts: Variants)
      ensures this.llm == llm && this.store == store && this.engine == engine
      ensures this.validate == validate && this.prompts == prompts
    {
      this.llm := llm;
      this.store := store;
      this.engine := engine;
      this.validate := validate;
      this.prompts := prompts;
    }

    /** `_run_prompt_chain`: the variants are rendered, then tried. */
    method RunPromptChain(name: string, args: map<string, string>, schema: Option<seq<string>>) returns (r: Result<string>)
      modifies llm
      ensures (r, llm.sent) == RunChain(prompts, name, args, schema, llm.replies, old(llm.sent))
    {
      var rendered := Get11(prompts, name, args, schema);
      if rendered.Err? {
        return Err(rendered.error);
      }
      r := TryVariants(name, rendered.value);
    }

    /**
     * The loop of `_run_prompt_chain`: the variants are sent one by one
     * until an answer is not blank; an error of the model ends the loop.
     */
    method TryVariants(name: string, variants: seq<string>) returns (r: Result<string>)
      modifies llm
      ensures var spec := Chain(name, variants, llm.replies, old(|llm.sent|));
        r == spec.0 && llm.sent == old(llm.sent) + spec.1
    {
      if variants == [] {
        return Err(ProviderError("No prompt templates found for '" + name + "'."));
      }
      ghost var base := |llm.sent|;
      var i := 0;
      while i < |variants|
        invariant i <= |variants|
        invariant llm.sent == old(llm.sent) + variants[..i]
        invariant BlankUpTo(variants, llm.replies, base, i)
      {
        var reply := llm.Generate(variants[i]);
        assert variants[..i + 1] == variants[..i] + [variants[i]];
        if reply.Err? {
          BackendErrorStops(name, variants, llm.replies, base, i);
          return Err(reply.error);
        }
        if !Blank(reply.value) {
          FirstAnswerWins(name, variants, llm.replies, base, i);
          return Ok(Strip(reply.value));
        }
        i := i + 1;
      }
      AllBlankFails(name, variants, llm.replies, base);
      assert variants[..i] == variants;
      r := Err(GaveUp(name, |variants|));
    }

    /**
     * `assert_into_session`: the session is saved once, with the new text,
     * exactly when something was added.
     */
    method AssertIntoSession(id: string, text: string) returns (r: Result<AssertResponse>)
      modifies llm, store
      ensures (r, llm.sent) == AssertPath(old(store.GetSession(id)), text, prompts, llm.replies, old(llm.sent))
      ensures r.Ok? && r.value.addedFacts != [] ==>
        store.sessions == old(store.sessions)[id := r.value.knowledgeBase]
        && store.saved == old(store.saved) + [(id, r.value.knowledgeBase)]
      ensures r.Err? || r.value.addedFacts == [] ==> store.sessions == old(store.sessions) && store.saved == old(store.saved)
    {
      var lookup := store.GetSession(id);
      if lookup.Err? {
        return Err(lookup.error);
      }
      var schema := V11Schema.GetKbSchema(lookup.value);
      var intentRaw := RunPromptChain("INTENT_CLASSIFIER", map["text" := text], None);
      r := AddTranslation(id, lookup.value, schema, text, intentRaw);
    }

    /** The rest of `assert_into_session` once the classifier has answered. */
    method AddTranslation(id: string, kb: string, schema: seq<string>, text: string, intentRaw: Result<string>) returns (r: Result<AssertResponse>)
      modifies llm, store
      ensures (r, llm.sent) == Translated(kb, schema, text, intentRaw, prompts, llm.replies, old(llm.sent))
      ensures r.Ok? && r.value.addedFacts != [] ==>
        store.sessions == old(store.sessions)[id := r.value.knowledgeBase]
        && store.saved == old(store.saved) + [(id, r.value.knowledgeBase)]
      ensures r.Err? || r.value.addedFacts == [] ==> store.sessions == old(store.sessions) && store.saved == old(store.saved)
    {
      if intentRaw.Err? {
        return Err(intentRaw.error);
      }
      var intent := Intent(intentRaw.value);
      var answer := RunPromptChain(Translator(intent), map["text" := text], Some(schema));
      if answer.Err? {
        return Err(answer.error);
      }
      var clauses := Extract(answer.value);
      if clauses == [] {
        return Err(ProviderError("LLM failed to generate valid Prolog code."));
      }
      var (added, kb') := AddStripped(kb, clauses);
      if added != [] {
        store.SaveSession(id, kb');
      }
      r := Ok(AssertResponse(added, kb', clauses, intent));
    }

    /** `run_query`: the goal, one engine query and the explanation; nothing is saved. */
    method RunQuery(id: string, query: string) returns (r: Result<QueryResponse>)
      modifies llm
      ensures (r, llm.sent) == QueryPath(store.GetSession(id), query, prompts, llm.replies, old(llm.sent), engine)
    {
      var lookup := store.GetSession(id);
      if lookup.Err? {
        return Err(lookup.error);
      }
      var schema := V11Schema.GetKbSchema(lookup.value);
      var raw := RunPromptChain("NL_TO_QUERY", map["query" := query], Some(schema));
      r := AnswerGoal(lookup.value, raw);
    }

    /** The rest of `run_query` once the model has proposed a goal. */
    method AnswerGoal(kb: string, raw: Result<string>) returns (r: Result<QueryResponse>)
      modifies llm
      ensures (r, llm.sent) == Asked(kb, raw, prompts, llm.replies, old(llm.sent), engine)
    {
      if raw.Err? {
        return Err(raw.error);
      }
      var goal := RStripChar(raw.value, '.');
      if goal == [] {
        return Err(ProviderError("LLM failed to generate a valid Prolog query."));
      }
      var result := NormaliseFalsy(engine(kb, goal), Timeout11);
      if result.Err? {
        return Err(result.error);
      }
      var answer := RunPromptChain("RESULT_TO_NL", map["query" := goal, "result" := Json(Shape11(result.value))], None);
      if answer.Err? {
        return Err(answer.error);
      }
      r := Ok(QueryResponse(goal, result.value, answer.value));
    }

    /** `update_kb`: validate, then replace the text and save; a rejected text leaves the store as it was. */
    method UpdateKb(id: string, kb: string) returns (r: Result<string>)
      modifies store
      ensures r == UpdateOutcome(old(store.GetSession(id)), validate(kb), "Knowledge base updated successfully.")
      ensures r.Ok? ==> store.sessions == old(store.sessions)[id := kb] && store.saved == old(store.saved) + [(id, kb)]
      ensures r.Err? ==> store.sessions == old(store.sessions) && store.saved == old(store.saved)
    {
      var lookup := store.GetSession(id);
      if lookup.Err? {
        return Err(lookup.error);
      }
      var verdict := validate(kb);
      if verdict.Some? {
        return Err(ValidationError("KB validation failed: " + verdict.value));
      }
      store.SaveSession(id, kb);
      r := Ok("Knowledge base updated successfully.");
    }
  }

  // ---------------------------------------------------------------------------
  // Properties of the two paths
  // ---------------------------------------------------------------------------

  /** `RULE` occurs at index `i` of `raw`, in any mix of upper and lower case. */
  predicate RuleAt(raw: string, i: nat) {
    i + 4 <= |raw| && Upper(raw[i..i + 4]) == "RULE"
  }

  /**
   * The classifier's answer counts as a rule exactly when it contains the
   * word `rule` in any case, anywhere, even inside another word.
   */
  lemma IntentIsRule(raw: string)
    ensures Intent(raw) == "RULE" <==> exists i: nat :: RuleAt(raw, i)
    ensures Intent(raw) != "RULE" ==> Intent(raw) == "FACT"
  {
    var u := Upper(raw);
    forall i: nat | i + 4 <= |raw| ensures OccursAt(u, "RULE", i) <==> RuleAt(raw, i) {
      var w := Upper(raw[i..i + 4]);
      forall k | 0 <= k < 4 ensures w[k] == u[i..i + 4][k] {
        assert raw[i..i + 4][k] == raw[i + k];
      }
      assert w == u[i..i + 4];
    }
    if Find(u, "RULE").Some? {
      assert RuleAt(raw, Find(u, "RULE").value);
    }
  }

  /** The classifier's prompt for variant `i`. */
  function ClassifierPrompt(c: Variants, text: string, i: nat): string
    requires "INTENT_CLASSIFIER" in c && i < |c["INTENT_CLASSIFIER"]|
  {
    LitAt(c["INTENT_CLASSIFIER"][i], 0) + text + LitAt(c["INTENT_CLASSIFIER"][i], 2)
  }

  /** The translation prompt for variant `i` of `name`, with the schema of `kb`. */
  function TranslatorPrompt(c: Variants, name: string, kb: string, text: string, i: nat): string
    requires name in c && i < |c[name]|
  {
    LitAt(c[name][i], 0) + SchemaSection(SchemaHeader11, Some(V11Schema.Schema(kb))) + LitAt(c[name][i], 2) + text + LitAt(c[name][i], 4)
  }

  /** An unknown session fails before the model is asked anything. */
  lemma UnknownSession(e: McrError, text: string, query: string, c: Variants, replies: Replies, sent: seq<string>,
                       engine: (string, string) -> EngineReply)
    ensures AssertPath(Err(e), text, c, replies, sent) == (Err(e), sent)
    ensures QueryPath(Err(e), query, c, replies, sent, engine) == (Err(e), sent)
  {
  }

  /** An assert on a known session, unfolded up to the classifier's answer. */
  lemma AssertPathUnfold(kb: string, text: string, c: Variants, replies: Replies, sent: seq<string>)
    ensures var (raw, sent') := RunChain(c, "INTENT_CLASSIFIER", map["text" := text], None, replies, sent);
      AssertPath(Ok(kb), text, c, replies, sent) == Translated(kb, V11Schema.Schema(kb), text, raw, c, replies, sent')
  {
  }

  /** A successful translation, unfolded. */
  lemma TranslatedOk(kb: string, schema: seq<string>, text: string, raw: Result<string>, c: Variants, replies: Replies, sent: seq<string>)
    requires Translated(kb, schema, text, raw, c, replies, sent).0.Ok?
    ensures var r := Translated(kb, schema, text, raw, c, replies, sent).0.value;
      raw.Ok? && r.intent == Intent(raw.value)
      && r.translatedProlog == Extract(RunChain(c, Translator(r.intent), map["text" := text], Some(schema), replies, sent).0.value)
      && r.translatedProlog != []
      && (r.addedFacts, r.knowledgeBase) == AddStripped(kb, r.translatedProlog)
  {
  }

  /**
   * Every successful assert: the translation produced at least one clause,
   * each stripped and ending with `.`; the added clauses are those that are
   * not a stripped line of the session's text, and the text is left alone
   * when none is; afterwards every one-line clause is a stripped line of the
   * new text, while a clause spanning lines is added again by every assert.
   */
  lemma AssertAdds(kb: string, text: string, c: Variants, replies: Replies, sent: seq<string>)
    requires AssertPath(Ok(kb), text, c, replies, sent).0.Ok?
    ensures var r := AssertPath(Ok(kb), text, c, replies, sent).0.value;
      r.translatedProlog != []
      && (forall f :: f in r.translatedProlog ==> IsStripped(f) && EndsWith(f, '.'))
      && (r.intent == "RULE" || r.intent == "FACT")
      && (r.addedFacts, r.knowledgeBase) == AddStripped(kb, r.translatedProlog)
      && (forall f :: f in r.addedFacts <==> f in r.translatedProlog && f !in StrippedLines(kb))
      && (r.addedFacts == [] ==> r.knowledgeBase == kb)
      && (forall f :: f in r.translatedProlog && !NoLineBreak(f) ==> f in r.addedFacts)
  {
    var (raw, sent1) := RunChain(c, "INTENT_CLASSIFIER", map["text" := text], None, replies, sent);
    AssertPathUnfold(kb, text, c, replies, sent);
    TranslatedOk(kb, V11Schema.Schema(kb), text, raw, c, replies, sent1);
    var r := AssertPath(Ok(kb), text, c, replies, sent).0.value;
    forall f | f in r.translatedProlog && !NoLineBreak(f) ensures f in r.addedFacts {
      StrippedLinesOneLine(kb, f);
    }
  }

  /**
   * Asserting again, when the translation yields the same one-line clauses,
   * adds nothing and leaves the text as the first assert left it (so the
   * session is not saved again).
   */
  lemma AssertTwice(kb: string, text: string, c: Variants, replies: Replies, sent: seq<string>, sent2: seq<string>)
    requires AssertPath(Ok(kb), text, c, replies, sent).0.Ok?
    requires var first := AssertPath(Ok(kb), text, c, replies, sent).0.value;
      (forall f :: f in first.translatedProlog ==> NoLineBreak(f))
      && var second := AssertPath(Ok(first.knowledgeBase), text, c, replies, sent2).0;
      second.Ok? && second.value.translatedProlog == first.translatedProlog
    ensures var first := AssertPath(Ok(kb), text, c, replies, sent).0.value;
      var second := AssertPath(Ok(first.knowledgeBase), text, c, replies, sent2).0.value;
      second.addedFacts == [] && second.knowledgeBase == first.knowledgeBase
  {
    var first := AssertPath(Ok(kb), text, c, replies, sent).0.value;
    AssertAdds(kb, text, c, replies, sent);
    AssertAdds(first.knowledgeBase, text, c, replies, sent2);
    var clauses := first.translatedProlog;
    forall f | f in clauses ensures OneLine(f) {
      assert IsStripped(f) && EndsWith(f, '.');
    }
    AddStrippedTwice(kb, clauses);
  }

  /** With the v11 catalogue, the classifier's first rendered variant. */
  lemma ClassifierFirst(c: Variants, text: string)
    requires Catalogue11(c)
    ensures var ps := Get11(c, "INTENT_CLASSIFIER", map["text" := text], None);
      ps.Ok? && ps.value != [] && ps.value[0] == ClassifierPrompt(c, text, 0)
  {
    Others11(c, text, "", "");
  }

  /** With the v11 catalogue, the first rendered variant of a translation template. */
  lemma TranslatorFirst(c: Variants, name: string, kb: string, text: string)
    requires Catalogue11(c) && (name == "NL_TO_RULES" || name == "NL_TO_FACTS")
    ensures var ps := Get11(c, name, map["text" := text], Some(V11Schema.Schema(kb)));
      ps.Ok? && ps.value != [] && ps.value[0] == TranslatorPrompt(c, name, kb, text, 0)
  {
    Prompts11(c, name, "text", text, Some(V11Schema.Schema(kb)));
  }

  /** A chain whose first variant gets an answer that is not blank sends that variant alone. */
  lemma RunChainFirst(c: Variants, name: string, args: map<string, string>, schema: Option<seq<string>>,
                      replies: Replies, sent: seq<string>)
    requires var ps := Get11(c, name, args, schema);
      ps.Ok? && ps.value != [] && replies(|sent|, ps.value[0]).Ok? && !Blank(replies(|sent|, ps.value[0]).value)
    ensures var p := Get11(c, name, args, schema).value[0];
      RunChain(c, name, args, schema, replies, sent) == (Ok(Strip(replies(|sent|, p).value)), sent + [p])
  {
    var ps := Get11(c, name, args, schema).value;
    FirstAnswerWins(name, ps, replies, |sent|, 0);
    assert ps[..1] == [ps[0]];
  }

  /**
   * With the v11 catalogue, when the first variant of each template gets an
   * answer that is not blank: the classifier is asked first, its stripped
   * answer picks the rules or the facts template (`RULE` in any case
   * anywhere in it picks rules), and that template is asked with the
   * session's schema; exactly these two prompts are sent. No clause in the
   * translation is an error; otherwise the clauses found are returned.
   */
  lemma AssertSends(kb: string, text: string, c: Variants, replies: Replies, sent: seq<string>, name: string)
    requires Catalogue11(c)
    requires var a1 := replies(|sent|, ClassifierPrompt(c, text, 0));
      a1.Ok? && !Blank(a1.value)
      && name == Translator(Intent(Strip(a1.value)))
    requires var a2 := replies(|sent| + 1, TranslatorPrompt(c, name, kb, text, 0));
      a2.Ok? && !Blank(a2.value)
    ensures var a2 := replies(|sent| + 1, TranslatorPrompt(c, name, kb, text, 0));
      var clauses := Extract(Strip(a2.value));
      var (r, sent') := AssertPath(Ok(kb), text, c, replies, sent);
      sent' == sent + [ClassifierPrompt(c, text, 0)] + [TranslatorPrompt(c, name, kb, text, 0)]
      && (clauses == [] ==> r == Err(ProviderError("LLM failed to generate valid Prolog code.")))
      && (clauses != [] ==>
            r.Ok? && r.value.translatedProlog == clauses
            && r.value.intent == (if name == "NL_TO_RULES" then "RULE" else "FACT"))
  {
    var p1 := ClassifierPrompt(c, text, 0);
    var raw := Strip(replies(|sent|, p1).value);
    ClassifierFirst(c, text);
    RunChainFirst(c, "INTENT_CLASSIFIER", map["text" := text], None, replies, sent);
    AssertPathUnfold(kb, text, c, replies, sent);
    assert |sent + [p1]| == |sent| + 1;
    TranslatedSends(kb, text, raw, c, replies, sent + [p1], name);
  }

  /** The translation step of `AssertSends`, once the classifier's answer `raw` is known. */
  lemma TranslatedSends(kb: string, text: string, raw: string, c: Variants, replies: Replies, sent: seq<string>, name: string)
    requires Catalogue11(c) && name == Translator(Intent(raw))
    requires var a2 := replies(|sent|, TranslatorPrompt(c, name, kb, text, 0));
      a2.Ok? && !Blank(a2.value)
    ensures var a2 := replies(|sent|, TranslatorPrompt(c, name, kb, text, 0));
      var clauses := Extract(Strip(a2.value));
      var (r, sent') := Translated(kb, V11Schema.Schema(kb), text, Ok(raw), c, replies, sent);
      sent' == sent + [TranslatorPrompt(c, name, kb, text, 0)]
      && (clauses == [] ==> r == Err(ProviderError("LLM failed to generate valid Prolog code.")))
      && (clauses != [] ==>
            r.Ok? && r.value.translatedProlog == clauses
            && r.value.intent == (if name == "NL_TO_RULES" then "RULE" else "FACT"))
  {
    TranslatorFirst(c, name, kb, text);
    RunChainFirst(c, name, map["text" := text], Some(V11Schema.Schema(kb)), replies, sent);
  }

  /** A chain whose every variant gets a blank answer fails after sending them all. */
  lemma RunChainExhausted(c: Variants, name: string, args: map<string, string>, schema: Option<seq<string>>,
                          replies: Replies, sent: seq<string>)
    requires var ps := Get11(c, name, args, schema);
      ps.Ok? && ps.value != [] && BlankUpTo(ps.value, replies, |sent|, |ps.value|)
    ensures var ps := Get11(c, name, args, schema).value;
      RunChain(c, name, args, schema, replies, sent)
      == (Err(GaveUp(name, |ps|)), sent + ps)
  {
    AllBlankFails(name, Get11(c, name, args, schema).value, replies, |sent|);
  }

  /**
   * When every variant of the classifier gets a blank answer, the assert
   * fails after sending them all, without translating anything.
   */
  lemma ClassifierExhausted(kb: string, text: string, c: Variants, replies: Replies, sent: seq<string>)
    requires Catalogue11(c)
    requires var ps := Get11(c, "INTENT_CLASSIFIER", map["text" := text], None);
      ps.Ok? && BlankUpTo(ps.value, replies, |sent|, |ps.value|)
    ensures var ps := Get11(c, "INTENT_CLASSIFIER", map["text" := text], None).value;
      AssertPath(Ok(kb), text, c, replies, sent)
      == (Err(GaveUp("INTENT_CLASSIFIER", |ps|)), sent + ps)
  {
    ClassifierFirst(c, text);
    RunChainExhausted(c, "INTENT_CLASSIFIER", map["text" := text], None, replies, sent);
    AssertPathUnfold(kb, text, c, replies, sent);
    var (raw, sent1) := RunChain(c, "INTENT_CLASSIFIER", map["text" := text], None, replies, sent);
    assert Translated(kb, V11Schema.Schema(kb), text, raw, c, replies, sent1) == (Err(raw.error), sent1);
  }

  /** The query prompt for variant `i`, with the schema of `kb`. */
  function QueryPrompt(c: Variants, kb: string, query: string, i: nat): string
    requires "NL_TO_QUERY" in c && i < |c["NL_TO_QUERY"]|
  {
    LitAt(c["NL_TO_QUERY"][i], 0) + SchemaSection(SchemaHeader11, Some(V11Schema.Schema(kb))) + LitAt(c["NL_TO_QUERY"][i], 2) + query + LitAt(c["NL_TO_QUERY"][i], 4)
  }

  /** The explanation prompt for variant `i`, with the goal and the encoded result. */
  function ExplainPrompt(c: Variants, goal: string, result: string, i: nat): string
    requires "RESULT_TO_NL" in c && i < |c["RESULT_TO_NL"]|
  {
    LitAt(c["RESULT_TO_NL"][i], 0) + goal + LitAt(c["RESULT_TO_NL"][i], 2) + result + LitAt(c["RESULT_TO_NL"][i], 4)
  }

  /** With the v11 catalogue, the first rendered variants of the query and explanation templates. */
  lemma QueryFirst(c: Variants, kb: string, query: string, goal: string, result: string)
    requires Catalogue11(c)
    ensures var ps := Get11(c, "NL_TO_QUERY", map["query" := query], Some(V11Schema.Schema(kb)));
      ps.Ok? && ps.value != [] && ps.value[0] == QueryPrompt(c, kb, query, 0)
    ensures var ps := Get11(c, "RESULT_TO_NL", map["query" := goal, "result" := result], None);
      ps.Ok? && ps.value != [] && ps.value[0] == ExplainPrompt(c, goal, result, 0)
  {
    Prompts11(c, "NL_TO_QUERY", "query", query, Some(V11Schema.Schema(kb)));
    Others11(c, "", goal, result);
  }

  /** A query on a known session, unfolded up to the model's proposed goal. */
  lemma QueryPathUnfold(kb: string, query: string, c: Variants, replies: Replies, sent: seq<string>,
                        engine: (string, string) -> EngineReply)
    ensures var (raw, sent') := RunChain(c, "NL_TO_QUERY", map["query" := query], Some(V11Schema.Schema(kb)), replies, sent);
      QueryPath(Ok(kb), query, c, replies, sent, engine) == Asked(kb, raw, c, replies, sent', engine)
  {
  }

  /**
   * After the model proposed `raw`: a goal that is nothing but dots fails
   * before the engine is asked; an engine that times out or crashes fails
   * with nothing more sent; otherwise the explanation template is asked with
   * the goal and the encoded shaped answer, and when its first variant gets
   * an answer that is not blank, that answer is the response's.
   */
  lemma AskedSends(kb: string, raw: string, c: Variants, replies: Replies, sent: seq<string>,
                   engine: (string, string) -> EngineReply)
    requires Catalogue11(c)
    ensures var goal := RStripChar(raw, '.');
      goal == [] ==> Asked(kb, Ok(raw), c, replies, sent, engine) == (Err(ProviderError("LLM failed to generate a valid Prolog query.")), sent)
    ensures var goal := RStripChar(raw, '.');
      goal != [] && !engine(kb, goal).Answered? ==>
        Asked(kb, Ok(raw), c, replies, sent, engine) == (Err(EngineError(engine(kb, goal), Timeout11)), sent)
    ensures var goal := RStripChar(raw, '.');
      goal != [] && engine(kb, goal).Answered? ==>
        var result := NormaliseFalsy(engine(kb, goal), Timeout11).value;
        var p2 := ExplainPrompt(c, goal, Json(Shape11(result)), 0);
        replies(|sent|, p2).Ok? && !Blank(replies(|sent|, p2).value) ==>
          Asked(kb, Ok(raw), c, replies, sent, engine) == (Ok(QueryResponse(goal, result, Strip(replies(|sent|, p2).value))), sent + [p2])
  {
    var goal := RStripChar(raw, '.');
    if goal != [] && engine(kb, goal).Answered? {
      var result := NormaliseFalsy(engine(kb, goal), Timeout11).value;
      var p2 := ExplainPrompt(c, goal, Json(Shape11(result)), 0);
      if replies(|sent|, p2).Ok? && !Blank(replies(|sent|, p2).value) {
        QueryFirst(c, kb, "", goal, Json(Shape11(result)));
        RunChainFirst(c, "RESULT_TO_NL", map["query" := goal, "result" := Json(Shape11(result))], None, replies, sent);
      }
    }
  }

  /**
   * With the v11 catalogue, when the first variant of the query template
   * gets an answer that is not blank, that template is asked first, with
   * the session's schema, and the goal is the stripped answer without its
   * trailing dots; what follows is `AskedSends`. A goal that is nothing but
   * dots fails with that one prompt sent, whatever the engine would answer.
   */
  lemma QuerySends(kb: string, query: string, c: Variants, replies: Replies, sent: seq<string>,
                   engine: (string, string) -> EngineReply)
    requires Catalogue11(c)
    requires var a1 := replies(|sent|, QueryPrompt(c, kb, query, 0));
      a1.Ok? && !Blank(a1.value)
    ensures var p1 := QueryPrompt(c, kb, query, 0);
      var raw := Strip(replies(|sent|, p1).value);
      QueryPath(Ok(kb), query, c, replies, sent, engine) == Asked(kb, Ok(raw), c, replies, sent + [p1], engine)
      && (RStripChar(raw, '.') == [] ==>
            QueryPath(Ok(kb), query, c, replies, sent, engine) == (Err(ProviderError("LLM failed to generate a valid Prolog query.")), sent + [p1]))
  {
    var p1 := QueryPrompt(c, kb, query, 0);
    QueryFirst(c, kb, query, "", "");
    RunChainFirst(c, "NL_TO_QUERY", map["query" := query], Some(V11Schema.Schema(kb)), replies, sent);
    QueryPathUnfold(kb, query, c, replies, sent, engine);
    AskedSends(kb, Strip(replies(|sent|, p1).value), c, replies, sent + [p1], engine);
  }
}
