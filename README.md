# MCR service core, three versions

MCR ("Model Context Reasoner") turns natural-language statements into Prolog
clauses with a large language model, keeps them in a per-session knowledge
base, and answers natural-language questions by having the model write a
Prolog goal, running it in a Prolog engine and having the model explain the
result. The repository holds three successive single-file versions of the
application, v5.1.1 (`python1/mcrws1.py`), v8.0.0 (`python1/mcrws2.py`) and
v11.0.0 (`python1/mcrws3.py`). This project models the backend service of
each one, `MCRService`, and the pieces of data logic around it:

- clause extraction from the model's answer (`_extract_prolog`): line
  cleaning with `.` (v5) or `.`/`:` (v8) terminators, and the v11 shape
  regex read over the whole text, matches spanning lines included;
- schema extraction (`_get_kb_schema`, v8 and v11): `name/arity`
  signatures, each version with its own arity rule, v11's lowercase atoms
  from parenthesised groups, the result sorted and free of duplicates;
- prompt rendering (`PromptManager.get`): `str.format` over templates
  modelled as literal and placeholder segments, and the schema section that
  is present only for a non-empty schema;
- the v11 prompt chain (`_run_prompt_chain`): variants tried in order, the
  first non-blank answer wins and nothing is sent after it;
- the assert path: the v11 intent classification, extraction, the
  order-preserving filter against raw (v5, v8) or stripped (v11)
  knowledge-base lines (repeats within one batch are kept), the append-then-strip update, and a save only when
  something was added;
- the query path: the goal with its trailing dots removed, the engine
  result normalised (`None` to `[]` in v5 and v8, every falsy result to
  `[]` in v11), shaped per version, encoded as JSON and sent to the
  explanation prompt;
- knowledge-base replacement (`update_kb`): validate, then replace and save;
- LLM configuration: `create_llm_provider` of v5 and v11, and the rule
  that an API key made only of `*` keeps the stored key (v5 and the v11
  `DependencyContainer`).

Collaborators are parameters. The model is a `Llm.LlmProvider` whose
answers are a function of the call number and the prompt, and which records
every prompt sent. The Prolog engine is a function from knowledge base and
goal to an `EngineReply` (an outcome, a timeout or a crash). The validator
is a function from text to an optional error message. The provider
constructors are a `Refusal` function saying whether the constructor raises.
The environment variable `GOOGLE_API_KEY` is a parameter. Sessions live in a
`Sessions.SessionStore` object holding a map from id to knowledge base and
the list of saves made.

Each service is a class whose methods change the model's `sent` list and the
session store. Each method is proved against a function that computes the
whole outcome, response and prompts sent, from the old state. The
properties below are proved about those functions.

Python's string operations are written out in `PyStr`: `str.strip` with
Python's whitespace set, `splitlines` with its line-boundary set and `\r\n`
as a single boundary, `split`, `join`, `count`, `find`, and `str(n)`.

In v11 an exception raised by `generate` is not caught inside the variant
loop (`python1/mcrws3.py:269`): it ends the chain at once, and no later
variant is tried (`PromptChain.BackendErrorStops`).

## Model

| member | source | states |
|---|---|---|
| PromptChain.Chain | python1/mcrws3.py:264-274 | no variants gives the ProviderError "No prompt templates found"; the prompts sent are a non-empty prefix of the variants; a success is stripped and non-empty |
| PromptChain.FirstAnswerWins | python1/mcrws3.py:267-273 | when variants 0..i-1 got blank answers and variant i a non-blank one, the result is that answer stripped and exactly variants 0..i were sent |
| PromptChain.BackendErrorStops | python1/mcrws3.py:269 | a backend error after blank answers ends the chain with that error, and nothing after the failing variant is sent |
| PromptChain.AllBlankFails | python1/mcrws3.py:274 | all answers blank: the ProviderError naming the template and the variant count, after every variant was sent |
| PromptChain.WinnerIsLast | python1/mcrws3.py:267-273 | a won chain's last sent variant got the winning answer and every earlier one a blank answer |
| PromptChain.ChainOk | python1/mcrws3.py:271-273 | a successful chain returns the winning answer stripped, and sends exactly the variants up to the winner |
| PromptChain.NothingAfterWinner | python1/mcrws3.py:273 | once a variant has won or its backend call has failed, appending more variants changes neither the outcome nor the calls made |
| PromptChain.ChainNothingAfterWinner | python1/mcrws3.py:273 | the same for the whole chain result, backend error included, for a chain that did not run out of variants |
| CleanText.CleanLines | python1/mcrws2.py:238 | every kept line is stripped, not blank, not a `%` comment and free of `\n`; there are no more of them than the text has lines |
| CleanText.Terminate | python1/mcrws2.py:239 | the line is kept or gets one `.`, and it then ends in an allowed terminator |
| CleanText.ExtractEnding | python1/mcrws1.py:220-222 | every clause is a clean line ending in an allowed terminator, at most one per input line |
| CleanText.JoinedLines | python1/mcrws1.py:220-222 | extraction gives back any list of clean terminated clauses joined by newlines (round trip) |
| CleanText.Idempotent | python1/mcrws1.py:220-222 | extracting again from the joined output gives the same clauses |
| CleanText.OneLine | python1/mcrws1.py:221-222 | a single line gives its stripped, terminated text, or nothing when it is blank or a comment |
| CleanText.LineByLine | python1/mcrws1.py:221 | extraction of `a + "\n" + b` is extraction of `a` followed by extraction of `b` |
| CleanText.NothingInEmpty | python1/mcrws1.py:221 | the empty answer gives no clauses |
| CleanText.TerminateAllConcat | python1/mcrws1.py:222 | terminating is done line by line |
| V5Service.ExtractProlog | python1/mcrws1.py:220-222 | every clause is stripped, not blank, not a comment, ends with `.`; at most one per line |
| V8Service.ExtractProlog | python1/mcrws2.py:237-239 | every clause is stripped, not blank, not a comment, ends with `.` or `:`; at most one per line |
| V8Service.ColonEndsDiffer | python1/mcrws2.py:239 | v5 and v8 extract the same number of clauses; they differ exactly on lines ending in `:`, where v5 adds a `.` |
| V8Service.TerminateColon | python1/mcrws2.py:239 | the same for one line |
| V11Extract.MatchEnd | python1/mcrws3.py:246 | a match at the start of the text ends after the first `)` of a call that starts the text |
| V11Extract.Matches | python1/mcrws3.py:246-247 | every match found by the scan starts with a closed call |
| V11Extract.Finish | python1/mcrws3.py:247 | a finished clause is stripped, ends with `.`, and still starts with the same call |
| V11Extract.KeepsCall | python1/mcrws3.py:247 | stripping a match keeps its call prefix |
| V11Extract.FinishAll | python1/mcrws3.py:247 | each match is finished in place, order and count kept |
| V11Extract.Extract | python1/mcrws3.py:245-247 | every returned clause is stripped, ends with `.` and starts with `name(` ... `)` |
| V11Extract.ProseYieldsNothing | python1/mcrws3.py:246 | text in which no line starts with a lowercase letter gives no clause |
| V11Extract.ProsePrefix | python1/mcrws3.py:246 | a prose paragraph before a newline contributes nothing |
| V11Extract.ClauseStep | python1/mcrws3.py:246 | a fact or rule line followed by a line break is matched on its own; a fact's match takes the newline with it |
| V11Extract.ClauseAlone | python1/mcrws3.py:246 | a single fact or rule line is matched whole |
| V11Extract.FactThen | python1/mcrws3.py:246 | a fact followed by a newline matches with that newline |
| V11Extract.RuleThen | python1/mcrws3.py:246 | a rule followed by a newline matches up to its line end |
| V11Extract.RuleMatchEnd | python1/mcrws3.py:246 | the `:-.*` part of a rule stops at the line break |
| V11Extract.FinishClause | python1/mcrws3.py:247 | finishing a clause line, with or without its newline, gives the line back |
| V11Extract.ClausesRoundTrip | python1/mcrws3.py:245-247 | clause lines joined by newlines, with an optional prose trailer, are extracted back exactly |
| V11Extract.LastClause | python1/mcrws3.py:245-247 | one clause followed by a prose trailer gives that clause |
| V11Extract.NextClause | python1/mcrws3.py:245-247 | extraction proceeds clause by clause through joined lines |
| V11Extract.TrailerYieldsNothing | python1/mcrws3.py:246 | a prose trailer yields no match |
| V11Extract.ExtractAmidProse | python1/mcrws3.py:245-247 | clause lines between a prose preamble and prose after them are extracted exactly, markdown and prose dropped |
| V11Extract.NestedTermCut | python1/mcrws3.py:246-247 | the lazy match stops at the first `)`: `p(f(a)).` gives `p(f(a).` |
| V11Extract.NestedMatch | python1/mcrws3.py:246 | the match of `p(f(a)).` is `p(f(a)` |
| V11Extract.NestedFinish | python1/mcrws3.py:247 | finishing `p(f(a)` appends the `.` |
| V11Schema.PredicateName | python1/mcrws3.py:251 | a name found is a non-empty lowercase-initial identifier prefix of the line |
| V11Schema.Signature | python1/mcrws3.py:256-259 | a line has a signature exactly when the predicate pattern finds a name |
| V11Schema.Groups | python1/mcrws3.py:252 | every group found is a `(...)` run of `[a-zA-Z0-9_,\s]` in the line |
| V11Schema.GetKbSchema | python1/mcrws3.py:249-263 | the loop over lines returns the schema function's value, sorted and duplicate-free |
| V11Schema.AddLine | python1/mcrws3.py:256-262 | the set gains exactly the line's signature and atoms |
| V11Schema.AddGroupAtoms | python1/mcrws3.py:260-262 | the set gains exactly the atoms of every group |
| V11Schema.AddAtoms | python1/mcrws3.py:261-262 | the set gains exactly the stripped lowercase-initial pieces |
| V11Schema.SignatureWhen | python1/mcrws3.py:251 | wildcard quirk: a stripped line has a signature exactly when it starts with a lowercase letter and has two or more characters |
| V11Schema.ProseLine | python1/mcrws3.py:251-259 | the prose line `the sky is blue` yields the signature `the/1` |
| V11Schema.FactSignature | python1/mcrws3.py:257-259 | the fact `name(a1, ..., an).` gets `name/n` |
| V11Schema.RuleSignature | python1/mcrws3.py:257-259 | the rule `name(a1, ..., an) :- body` gets `name/n` whatever its body |
| V11Schema.OneArgument | python1/mcrws3.py:258 | `foo(a).` gets `foo/1` |
| V11Schema.TwoArguments | python1/mcrws3.py:258 | `foo(a, b).` gets `foo/2` |
| V11Schema.GrandparentSignature | python1/mcrws3.py:257-259 | `grandparent(GP, GC) :- body` gets `grandparent/2` |
| V11Schema.EmptyArguments | python1/mcrws3.py:258 | a head with `()` has arity 0: `p().` gets `p/0` |
| V11Schema.GroupsComplete | python1/mcrws3.py:260 | every `(g)` group in a line is found by the scan from any earlier position |
| V11Schema.AtomsMember | python1/mcrws3.py:261-262 | an atom is a stripped, non-empty, lowercase-initial piece |
| V11Schema.GroupAtomsMember | python1/mcrws3.py:260-262 | the atoms of the groups are the atoms of some group |
| V11Schema.KeptItemsAre | python1/mcrws3.py:256-262 | a line contributes its signature and its atoms and nothing else |
| V11Schema.SchemaMembers | python1/mcrws3.py:249-263 | the schema is sorted and duplicate-free, and holds exactly the signatures and atoms of the lines that are not blank or comments |
| V11Schema.SchemaOfKeptLines | python1/mcrws3.py:253-255 | the schema depends only on the set of stripped non-comment lines |
| V11Schema.NoParenNoGroups | python1/mcrws3.py:252 | a line without `(` has no group |
| V11Schema.SchemaGrows | python1/mcrws3.py:286 | after an assert appends clauses, the schema keeps every old entry and gains the new clauses' items |
| V8Schema.CallName | python1/mcrws2.py:245 | a name exactly when the line starts with an identifier followed directly by `(` |
| V8Schema.Signature | python1/mcrws2.py:245-250 | a line has a signature exactly when it starts with a call |
| V8Schema.GetKbSchema | python1/mcrws2.py:240-251 | the loop returns the schema function's value, sorted and duplicate-free |
| V8Schema.LineSignature | python1/mcrws2.py:245-250 | the arity adjusted in place gives the signature function's value |
| V8Schema.SchemaMembers | python1/mcrws2.py:240-251 | sorted, duplicate-free, and made of exactly the signatures of lines that are not blank or comments |
| V8Schema.FactSignature | python1/mcrws2.py:248 | a fact `name(a1,...,an)` followed by a tail without `,` or `:` gets `name/n` |
| V8Schema.RuleSignature | python1/mcrws2.py:248-249 | a rule's body commas are added and taken away again: `name/n` |
| V8Schema.GrandparentSignature | python1/mcrws2.py:248-249 | `grandparent(GP,GC) :- parent(GP,P), parent(P,GC).` gets `grandparent/2` |
| V8Schema.EmptyArguments | python1/mcrws2.py:248 | `p().` gets `p/1`, unlike v11 |
| V8Schema.NegativeArity | python1/mcrws2.py:248-249 | `p(a :- b, c` (no `)`) gets the arity -1 |
| V8Schema.UnclosedArity | python1/mcrws2.py:248-249 | without `)`, the arity is minus the comma count after `:-` |
| Prompts.Get5 | python1/mcrws1.py:161-162 | an unknown template is a KeyError; success exactly when every placeholder has a value |
| Prompts.Prompts5 | python1/mcrws1.py:161-162 | the rules and query prompts are their template with the text or query put in |
| Prompts.Answer5 | python1/mcrws1.py:244 | the answer prompt with style, query and result put in |
| Prompts.AnswerNeedsStyle5 | python1/mcrws1.py:162 | without a style the answer template fails with KeyError `style` |
| Prompts.SchemaSection | python1/mcrws2.py:182-187 | the section is empty exactly when the schema is missing or empty; v8 and v11 differ only in its header |
| Prompts.Get8 | python1/mcrws2.py:181-188 | an unknown template is a KeyError; success exactly when every placeholder except the schema section has a value |
| Prompts.Prompts8 | python1/mcrws2.py:181-188 | rules and query prompts with the schema section and the text or query put in |
| Prompts.Answer8 | python1/mcrws2.py:280 | the answer prompt with query and result put in |
| Prompts.FormatAll | python1/mcrws3.py:185 | one rendered prompt per variant, in order, or the first variant's error |
| Prompts.Get11 | python1/mcrws3.py:182-185 | `[]` for an unknown template; otherwise one prompt per variant in declaration order, each formatted with the schema section |
| Prompts.Prompts11 | python1/mcrws3.py:182-185 | facts, rules and query variants with schema section and text or query put in |
| Prompts.Others11 | python1/mcrws3.py:182-185 | classifier and answer variants with their values put in |
| Templates.Format | python1/mcrws3.py:185 | `str.format` succeeds exactly when every placeholder has a value, else a KeyError naming a missing one |
| Templates.FormatSplit | python1/mcrws3.py:185 | the output splits at any placeholder into the parts before, its value and the parts after |
| Templates.FormatAgree | python1/mcrws3.py:185 | values of keys the template does not use do not matter |
| Templates.FormatOne | python1/mcrws3.py:185 | a one-placeholder template gives literal, value, literal |
| Templates.FormatTwo | python1/mcrws3.py:185 | the same for two placeholders |
| Templates.FormatThree | python1/mcrws1.py:162 | the same for three placeholders |
| KbText.NotIn | python1/mcrws3.py:284 | the kept clauses are exactly those not present, and there are no more of them than clauses |
| KbText.NotInConcat | python1/mcrws3.py:284 | filtering `a + b` is filtering `a` followed by filtering `b`: the filter keeps input order |
| KbText.NotInOne | python1/mcrws3.py:284 | a single clause is kept exactly when it is not present |
| KbText.NotInCounts | python1/mcrws3.py:284 | a clause that is not present is kept as many times as the batch holds it |
| KbText.AddRaw | python1/mcrws2.py:260-263 | added is the filter of the clauses against the raw lines and the text is the append of it; nothing added leaves the text; for one-line clauses the new text is the added clauses joined by newlines, after the old text left-stripped and a newline when that text is not blank, and every clause is a line afterwards |
| KbText.AddStripped | python1/mcrws3.py:284-286 | added is the filter of the clauses against the stripped lines and the text is the append of it; nothing added leaves the text; for one-line clauses the new text is the added clauses joined by newlines, after the old text left-stripped and a newline when that text is not blank, and every clause is a stripped line afterwards |
| KbText.AppendedShape | python1/mcrws3.py:286 | `(kb + "\n" + join(added)).strip()` is the joined clauses after a blank base, else the base left-stripped, a newline and the joined clauses |
| KbText.AppendedLines | python1/mcrws2.py:263 | every appended clause is a line of the new text; an old line that starts with a non-space character is still a line, and every old non-blank line is still there once stripped |
| KbText.KeptStripped | python1/mcrws3.py:284-286 | clauses present before are still present after an append |
| KbText.AddRawTwice | python1/mcrws1.py:228-231 | asserting the same one-line clauses again adds nothing and keeps the text |
| KbText.AddStrippedTwice | python1/mcrws3.py:284-286 | the same for the v11 stripped comparison |
| KbText.NoneLeft | python1/mcrws3.py:284-285 | clauses all present give an empty added list |
| Shaping.EngineError | python1/mcrws3.py:198-199 | a timeout gives the ProviderError with the timeout in seconds; any crash a ProviderError |
| Shaping.Normalise | python1/mcrws2.py:196 | `None` becomes `[]`, every other result is kept; engine failures are errors |
| Shaping.NormaliseFalsy | python1/mcrws3.py:197 | every falsy result becomes `[]`, truthy ones are kept |
| Shaping.GoalTrimsDots | python1/mcrws1.py:239 | the goal is the stripped answer less its trailing run of `.` and ends without `.` |
| Shaping.Shape5 | python1/mcrws1.py:243 | `"Yes"` exactly for a truthy result, else `"No"` |
| Shaping.Shape8 | python1/mcrws2.py:279 | `"true"` exactly for True, `"No"` exactly for False, anything else passed through |
| Shaping.Shape11 | python1/mcrws3.py:295 | `"true"` exactly for True, `"No"` exactly for a falsy result or `['No']`, else passed through |
| Shaping.NoneIsNo5 | python1/mcrws1.py:170 | `None` is normalised to `[]` and explained as `"No"` |
| Shaping.Explained5 | python1/mcrws1.py:243-244 | the v5 JSON result is `"Yes"` or `"No"` by truthiness: empty and false results never give `"Yes"` |
| Shaping.ListNoAcrossVersions | python1/mcrws3.py:295 | `['No']` is `"Yes"` in v5, `"No"` in v11 and passed through in v8 |
| Shaping.EmptyIsList8 | python1/mcrws2.py:196 | `None` becomes `[]`, which v8 passes through as the JSON `[]` |
| Shaping.Shape8And11 | python1/mcrws3.py:295 | v8 and v11 shape a result differently exactly for `None`, `[]` and `['No']` |
| Shaping.NormalisedShape8And11 | python1/mcrws3.py:197 | after each version's normalisation they differ exactly for falsy results other than False, and for `['No']` |
| Reasoning.JsonOutcome | python1/mcrws3.py:296 | `json.dumps` of a result is printable ASCII |
| Reasoning.JsonOneLine | python1/mcrws3.py:296 | the JSON text has no line break |
| Reasoning.JsonPlainWord | python1/mcrws3.py:296 | a plain word is quoted unchanged |
| Sorting.Canonical | python1/mcrws3.py:263 | `sorted(set(xs))` is strictly sorted and has the same members |
| Sorting.SortedUnique | python1/mcrws3.py:263 | two strictly sorted lists with the same members are equal |
| Sorting.SortedList | python1/mcrws3.py:263 | the set becomes a strictly sorted list of the same members |
| Sessions.SessionStore.GetSession | python1/mcrws3.py:208-211 | the stored text, or NotFoundError naming the session |
| Sessions.SessionStore.SaveSession | python1/mcrws3.py:212-214 | the session's text is replaced and one save is recorded |
| Sessions.UpdateOutcome | python1/mcrws3.py:359-361 | unknown session first, then a failed validation is a ValidationError with its message; success exactly when both pass |
| Llm.LlmProvider.Generate | python1/mcrws3.py:269 | the answer for this call and prompt, and the prompt recorded as sent |
| Config.Index | python1/mcrws3.py:310 | `config[key]` succeeds exactly for a present key, else KeyError |
| Config.Dump | python1/mcrws3.py:320 | `model_dump()` has the four fields |
| Config.NewConfig | python1/mcrws3.py:320-321 | the new store holds the request's fields, with a masked key replaced by the stored key |
| Config.CreateLlmProvider5 | python1/mcrws1.py:252-260 | an unknown name fails before construction; a built provider matches the name; constructor failures are reported as "Failed to initialize" |
| Config.UnknownBeforeConstruction | python1/mcrws1.py:254-255 | for an unknown name the outcome does not depend on the constructors |
| Config.OllamaFromRequest | python1/mcrws1.py:257 | an Ollama request builds Ollama with the request's model and URL |
| Config.GeminiKey | python1/mcrws3.py:312 | the stored key when it is non-empty, else the environment's |
| Config.CreateLlmProvider11 | python1/mcrws3.py:307-317 | any name but Ollama or Gemini gives Mock; a Gemini provider has a non-empty key from store or environment |
| Config.GeminiWithoutKey | python1/mcrws3.py:313-317 | no key anywhere: "Failed to init Gemini: Gemini API key not found." |
| Config.StartsWithMock | python1/mcrws3.py:302-306 | the initial store builds Mock |
| Config.MissingUrl | python1/mcrws3.py:310-316 | Ollama without `base_url` is "Missing config key for Ollama: 'base_url'" |
| Config.Settings5.constructor | python1/mcrws1.py:250 | the initial store and the Mock provider |
| Config.Settings5.SetLlmConfig | python1/mcrws1.py:286-295 | store and provider change only when the provider is built; otherwise the error and both unchanged |
| Config.DependencyContainer.constructor | python1/mcrws3.py:301-306 | the initial store and the Mock provider |
| Config.DependencyContainer.SetLlmConfig | python1/mcrws3.py:319-322 | the store is replaced before the provider is built; the provider changes only on success |
| Config.MaskedKeepsKey | python1/mcrws3.py:321 | a masked key in a second update keeps the key of the first |
| Config.UnmaskedStored | python1/mcrws3.py:320-321 | a missing, empty or unmasked key is stored as sent |
| Config.FailedGeminiUpdate | python1/mcrws3.py:319-322 | a Gemini update without any key fails and leaves the key empty in the store |
| V5Service.MCRService.AssertIntoSession | python1/mcrws1.py:223-233 | response and prompts sent as the assert function gives them; session saved once exactly when something was added |
| V5Service.MCRService.RunQuery | python1/mcrws1.py:234-246 | response and prompts sent as the query function gives them |
| V5Service.MCRService.ExplainGoal | python1/mcrws1.py:241-246 | the engine step and the answer prompt as the explanation function gives them |
| V5Service.MCRService.UpdateKb | python1/mcrws1.py:310-316 | a validation failure saves nothing; success replaces the text and saves it |
| V5Service.AssertPathOk | python1/mcrws1.py:225-233 | one prompt sent and the raw-line dedup applied to the extracted clauses |
| V5Service.QueryPathSplit | python1/mcrws1.py:237-241 | the query prompt goes first, then the explanation of the trimmed goal |
| V5Service.ExplainOk | python1/mcrws1.py:241-246 | the normalised result, the shaped answer prompt and its answer |
| V5Service.UnknownSession | python1/mcrws1.py:224 | an unknown session fails with NotFoundError before any prompt |
| V5Service.AssertSends | python1/mcrws1.py:225-233 | exactly the rules prompt is sent; a backend error propagates; added is the order-preserving filter of the extracted clauses against the raw lines, and the text is the append of it; nothing added keeps the text |
| V5Service.AssertTwice | python1/mcrws1.py:228-231 | asserting the same answer again adds nothing and keeps the text |
| V5Service.QuerySends | python1/mcrws1.py:237-245 | two prompts: the query, then the answer with a dot-free goal and `"Yes"`/`"No"`; the answer is the model's reply |
| V8Service.MCRService.AssertIntoSession | python1/mcrws2.py:252-265 | response and prompts sent as the assert function gives them; saved once exactly when something was added |
| V8Service.MCRService.RunQuery | python1/mcrws2.py:266-284 | response and prompts sent as the query function gives them |
| V8Service.MCRService.AskWith | python1/mcrws2.py:270-284 | the query prompt with the schema, then the explanation |
| V8Service.MCRService.ExplainGoal | python1/mcrws2.py:276-284 | the engine step and the answer prompt as the explanation function gives them |
| V8Service.MCRService.UpdateKb | python1/mcrws2.py:339-343 | a validation failure saves nothing; success replaces the text and saves it |
| V8Service.AssertPathOk | python1/mcrws2.py:254-265 | one prompt with the schema, and the raw-line dedup of the extracted clauses |
| V8Service.AskSplit | python1/mcrws2.py:270-276 | the query prompt goes first, then the explanation of the trimmed goal |
| V8Service.ExplainOk | python1/mcrws2.py:276-284 | the normalised result, the shaped answer prompt and its answer |
| V8Service.AssertSends | python1/mcrws2.py:254-265 | exactly the rules prompt with the knowledge base's schema is sent; translatedProlog is the extraction; added is the order-preserving filter of it against the raw lines, and the text is the append of it |
| V8Service.AssertTwice | python1/mcrws2.py:260-263 | re-asserting the same one-line clauses against the result adds nothing and keeps the text |
| V8Service.QuerySends | python1/mcrws2.py:268-283 | two prompts: the query with the schema, then the answer with the dot-free goal and the v8 shaping |
| V8Service.ExplainSends | python1/mcrws2.py:276-283 | the single answer prompt, the goal returned as queryProlog and the model's reply as answer |
| V11Service.MCRService.RunPromptChain | python1/mcrws3.py:264-274 | result and prompts sent as the chain function gives them |
| V11Service.MCRService.TryVariants | python1/mcrws3.py:267-274 | the loop returns the chain's result and sends exactly the chain's prompts |
| V11Service.MCRService.AssertIntoSession | python1/mcrws3.py:275-288 | response and prompts sent as the assert function gives them; saved once exactly when something was added |
| V11Service.MCRService.AddTranslation | python1/mcrws3.py:279-288 | the translation, extraction, dedup and save after the classifier |
| V11Service.MCRService.RunQuery | python1/mcrws3.py:289-297 | response and prompts sent as the query function gives them |
| V11Service.MCRService.AnswerGoal | python1/mcrws3.py:292-297 | the goal check, engine step and explanation chain |
| V11Service.MCRService.UpdateKb | python1/mcrws3.py:358-361 | a validation failure saves nothing; success replaces the text and saves it |
| V11Service.IntentIsRule | python1/mcrws3.py:279 | the intent is RULE exactly when `RULE` occurs in the uppercased answer, else FACT |
| V11Service.UnknownSession | python1/mcrws3.py:276 | an unknown session fails before any prompt is sent |
| V11Service.AssertPathUnfold | python1/mcrws3.py:276-281 | the classifier chain runs first, with the knowledge base's schema kept for the translation |
| V11Service.TranslatedOk | python1/mcrws3.py:279-288 | a success carries the intent of the classifier answer, the clauses extracted from the matching translator's answer (non-empty) and the stripped-line dedup |
| V11Service.AssertAdds | python1/mcrws3.py:282-288 | clauses are stripped and end in `.`; intent RULE or FACT; added is exactly the clauses not among the stripped lines; nothing added keeps the text |
| V11Service.AssertTwice | python1/mcrws3.py:284-286 | the same one-line clauses asserted against the result add nothing |
| V11Service.ClassifierFirst | python1/mcrws3.py:278 | the first classifier prompt is the first variant with the text put in |
| V11Service.TranslatorFirst | python1/mcrws3.py:281 | the first translator prompt carries the knowledge base's schema |
| V11Service.RunChainFirst | python1/mcrws3.py:271-273 | a non-blank first answer wins after one call |
| V11Service.AssertSends | python1/mcrws3.py:278-283 | two prompts, classifier then translator; no clauses is the ProviderError; else the clauses and the intent of the chosen translator |
| V11Service.TranslatedSends | python1/mcrws3.py:280-283 | the translator prompt is sent; no clauses is the ProviderError |
| V11Service.RunChainExhausted | python1/mcrws3.py:274 | all blank answers send every variant and give the ProviderError |
| V11Service.ClassifierExhausted | python1/mcrws3.py:278 | a classifier with all blank answers ends the assert with that error |
| V11Service.QueryFirst | python1/mcrws3.py:292-296 | the first query and answer prompts are the first variants with their values |
| V11Service.QueryPathUnfold | python1/mcrws3.py:290-292 | the query chain runs first, with the knowledge base's schema |
| V11Service.AskedSends | python1/mcrws3.py:292-297 | an empty goal is the ProviderError; an engine failure its error; otherwise the answer prompt with the v11 shaped JSON and the stripped reply |
| V11Service.QuerySends | python1/mcrws3.py:292-293 | the goal is the stripped answer less trailing dots, and an all-dot answer fails with the ProviderError |

## Left out

- The PyQt GUI, the demo data and runners, the FastAPI application, routes, middleware and exception handlers, the HTTP client and the server thread: presentation and transport.
- File storage and JSON (de)serialisation of sessions, `list_sessions`, and `modifiedAt`: persistence is a map from id to text plus the list of saves.
- The Ollama, Gemini and Mock providers and the langchain objects: the model is a function of call number and prompt.
- The pytholog engine, its parsing of the knowledge base, and the `asyncio` timeout machinery: the engine is a function returning an answer, a timeout or a crash; only the result normalisation is kept.
- Logging, trace ids and `debugInfo`.
- The literal prompt prose: templates are sequences of literal and placeholder segments, and each catalogue is a predicate on their shape (which placeholders, in which order).
- `create_llm_provider` and `set_llm_config` of v8: only v5 and v11 are modelled.
- `str.format` escapes (`{{`, `}}`), format specs and attribute lookups: the templates use plain `{name}` placeholders only.
- Reasoning.JsonOutcome: the encoding is proved printable and single-line; the exact escape sequences of `json.dumps` for every code point are written out but not related to a JSON reader.
- PyStr.Upper: maps only the ASCII letters `a`-`z`; Python's `str.upper` also maps non-ASCII letters, which cannot change whether `RULE` occurs.
- KbText.AddRawTwice, KbText.AddStrippedTwice, V5Service.AssertTwice, V8Service.AssertTwice and V11Service.AssertTwice: assume clauses without line-break characters; a clause with an embedded break is split by `splitlines` and never matches.
- V11Extract.ClausesRoundTrip: covers clause lines that hold a single call each (a fact `name(args).` or a rule `name(args) :- body`); nested parentheses are covered by the separate lemma on `p(f(a)).`.
- V8Schema.FactSignature and V8Schema.RuleSignature: arguments are words separated by `,` or `, `, as the knowledge bases are written; nested terms in the head are not covered.
- V11Schema.FactSignature and V11Schema.RuleSignature: arguments are words separated by `, `.
- V11Service.MCRService.TryVariants, V11Service.MCRService.AddTranslation, V11Service.MCRService.AnswerGoal, V8Service.MCRService.AskWith, V5Service.MCRService.ExplainGoal and V8Service.MCRService.ExplainGoal: each is a second half of a single source method, split out so that each half is proved on its own.
