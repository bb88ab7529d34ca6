/**
 * What the service does with the engine's answer: `PythologReasonProvider.query`
 * turns a missing answer into an empty list and the engine's failures into
 * `ProviderError`s, and `run_query` shapes the answer before encoding it
 * for the explanation prompt. The three versions differ in both steps.
 */
module Shaping {
  import opened Errors
  import opened PyStr
  import opened Reasoning

  /** `REASONING_TIMEOUT_SECONDS` of v5, v8 and v11. */
  const Timeout5: nat := 5
  const Timeout8: nat := 10
  const Timeout11: nat := 10

  /** The errors `query` raises when the engine does not answer. */
  function EngineError(reply: EngineReply, seconds: nat): (e: McrError)
    requires !reply.Answered?
    ensures e.ProviderError?
    ensures reply.TimedOut? <==> e.message == "Reasoning query timed out after " + NatToString(seconds) + "s."
  {
    match reply
    case TimedOut => ProviderError("Reasoning query timed out after " + NatToString(seconds) + "s.")
    case Crashed(m) =>
      assert ("Pytholog reasoning error: " + m)[0] == 'P';
      ProviderError("Pytholog reasoning error: " + m)
  }

  /**
   * v5 and v8: `result if result is not None else []`. Only `None` is
   * replaced, so `False` and `[]` reach the service as they are.
   */
  function Normalise(reply: EngineReply, seconds: nat): (r: Result<Outcome>)
    ensures r.Err? <==> !reply.Answered?
    ensures r.Ok? ==> !r.value.NoneR? && (Truthy(r.value) <==> Truthy(reply.outcome))
    ensures r.Ok? && reply.outcome != NoneR ==> r.value == reply.outcome
  {
    match reply
    case Answered(o) => Ok(if o.NoneR? then List([]) else o)
    case _ => Err(EngineError(reply, seconds))
  }

  /**
   * v11: `... or []`. Every falsy answer (`None`, `False`, `[]`) becomes `[]`;
   * truthy answers are kept.
   */
  function NormaliseFalsy(reply: EngineReply, seconds: nat): (r: Result<Outcome>)
    ensures r.Err? <==> !reply.Answered?
    ensures r.Ok? ==> (r.value.TrueR? || r.value.List?) && (Truthy(r.value) <==> Truthy(reply.outcome))
    ensures r.Ok? ==> (Truthy(reply.outcome) ==> r.value == reply.outcome) && (!Truthy(r.value) ==> r.value == List([]))
  {
    match reply
    case Answered(o) => Ok(if Truthy(o) then o else List([]))
    case _ => Err(EngineError(reply, seconds))
  }

  /**
   * v5 and v8: the goal sent to the engine, `raw.strip().rstrip('.')`:
   * the stripped reply without its trailing dots (and nothing else removed).
   */
  function Goal(raw: string): string
  {
    RStripChar(Strip(raw), '.')
  }

  /** The goal is the stripped reply less a run of trailing dots, and nothing else. */
  lemma GoalTrimsDots(raw: string)
    ensures var g := Goal(raw);
      !EndsWith(g, '.') && |g| <= |Strip(raw)| && Strip(raw) == g + Strip(raw)[|g|..]
      && forall i :: |g| <= i < |Strip(raw)| ==> Strip(raw)[i] == '.'
  {
    var s := Strip(raw);
    var g := RStripChar(s, '.');
    assert s == g + s[|g|..];
  }

  /** v5: `"Yes" if result else "No"`. */
  function Shape5(o: Outcome): (r: Shaped)
    ensures r == Token("Yes") || r == Token("No")
    ensures r == Token("Yes") <==> Truthy(o)
  {
    if Truthy(o) then Token("Yes") else Token("No")
  }

  /** v8: `"true"` for `True`, `"No"` for `False`, and any other result passed on as it is. */
  function Shape8(o: Outcome): (r: Shaped)
    ensures r == Token("true") <==> o.TrueR?
    ensures r == Token("No") <==> o.FalseR?
    ensures r.Token? || r == Raw(o)
  {
    if o.TrueR? then Token("true") else if o.FalseR? then Token("No") else Raw(o)
  }

  /** v11: `"true"` for `True`, `"No"` for a falsy result or `['No']`, otherwise the result itself. */
  function Shape11(o: Outcome): (r: Shaped)
    ensures r == Token("true") <==> o.TrueR?
    ensures r == Token("No") <==> !Truthy(o) || o == ListNo
    ensures r.Token? || r == Raw(o)
  {
    if o.TrueR? then Token("true") else if !Truthy(o) || o == ListNo then Token("No") else Raw(o)
  }

  // ---------------------------------------------------------------------------
  // What reaches the explanation prompt
  // ---------------------------------------------------------------------------

  /** v5: a query the engine answers with `None` (or `[]`) is explained as `"No"`, never as `"Yes"`. */
  lemma NoneIsNo5()
    ensures Normalise(Answered(NoneR), Timeout5) == Ok(List([]))
    ensures Json(Shape5(List([]))) == "\"No\""
  {
    JsonPlainWord("No");
  }

  /** v5: the result the explanation prompt carries is `"Yes"` or `"No"`, by truthiness. */
  lemma Explained5(o: Outcome)
    ensures Json(Shape5(o)) == if Truthy(o) then "\"Yes\"" else "\"No\""
  {
    if Truthy(o) {
      JsonPlainWord("Yes");
    } else {
      JsonPlainWord("No");
    }
  }

  /**
   * v5 reads `['No']` as a truthy list and so explains it as `"Yes"`; v11
   * turns the same answer into `"No"`; v8 passes the list on.
   */
  lemma ListNoAcrossVersions()
    ensures Json(Shape5(ListNo)) == "\"Yes\""
    ensures Json(Shape11(ListNo)) == "\"No\""
    ensures Json(Shape8(ListNo)) == "[\"No\"]"
  {
    assert Truthy(ListNo) && ListNo.List?;
    assert Shape5(ListNo) == Token("Yes");
    assert Shape11(ListNo) == Token("No");
    assert Shape8(ListNo) == Raw(ListNo);
    JsonPlainWord("Yes");
    JsonPlainWord("No");
    OneWordList("No");
  }

  /** `json.dumps([w])` for a plain word `w`. */
  lemma OneWordList(w: string)
    requires forall i :: 0 <= i < |w| ==> IsIdentChar(w[i])
    ensures JsonOutcome(List([Word(w)])) == "[\"" + w + "\"]"
  {
    JsonPlainWord(w);
    assert JsonItems([Word(w)]) == [JsonString(w)];
    assert Join([JsonString(w)], ", ") == JsonString(w);
  }

  /** v8: an empty answer is passed on as the JSON list `[]`, not as `"No"`. */
  lemma EmptyIsList8()
    ensures Normalise(Answered(NoneR), Timeout8) == Ok(List([]))
    ensures Json(Shape8(List([]))) == "[]"
  {
    assert JsonItems([]) == [];
    assert Join([], ", ") == "";
  }

  /**
   * v8 and v11 shape alike except on the answers v11 additionally reads as
   * a "No": `None`, `[]` and `['No']`.
   */
  lemma Shape8And11(o: Outcome)
    ensures Shape8(o) != Shape11(o) <==> o == NoneR || o == List([]) || o == ListNo
  {
  }

  /**
   * After each version's normalisation, v8 and v11 still differ on exactly
   * the empty and the `['No']` answers.
   */
  lemma NormalisedShape8And11(reply: EngineReply)
    requires reply.Answered?
    ensures var a := Normalise(reply, Timeout8).value;
      var b := NormaliseFalsy(reply, Timeout11).value;
      Shape8(a) != Shape11(b) <==> (!Truthy(reply.outcome) && !reply.outcome.FalseR?) || reply.outcome == ListNo
  {
  }
}
