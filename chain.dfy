/**
 * The v11 prompt chain (`MCRService._run_prompt_chain`): the rendered
 * variants of a template are sent one at a time, in order; the first answer
 * that is not blank once stripped wins and is returned stripped; an error
 * of the backend ends the chain at once.
 */
module PromptChain {
  import opened Errors
  import opened PyStr
  import opened Llm

  /** How trying a run of variants ends: the winning answer (not yet stripped), an error, or nothing. */
  datatype Attempt = Won(answer: string) | Failed(error: McrError) | Exhausted

  /** The `k`-th call answered, and answered with blank text. */
  predicate BlankReply(replies: Replies, k: nat, prompt: string) {
    replies(k, prompt).Ok? && Blank(replies(k, prompt).value)
  }

  /** The variants before index `i` all got blank answers, the first at call `base`. */
  predicate BlankUpTo(prompts: seq<string>, replies: Replies, base: nat, i: nat)
    requires i <= |prompts|
  {
    forall j :: 0 <= j < i ==> BlankReply(replies, base + j, prompts[j])
  }

  /** The error raised when every variant of `name` got a blank answer. */
  function GaveUp(name: string, n: nat): (e: McrError)
    ensures e.ProviderError?
  {
    ProviderError("LLM failed for '" + name + "' after trying all " + NatToString(n) + " variants.")
  }

  /**
   * The loop of `_run_prompt_chain` from call number `base` on: how it ends
   * and how many calls it makes.
   */
  function Attempts(prompts: seq<string>, replies: Replies, base: nat): (r: (Attempt, nat))
    ensures r.1 <= |prompts|
    ensures prompts != [] ==> 1 <= r.1
    ensures r.0.Exhausted? ==> r.1 == |prompts|
    ensures r.0.Won? ==> !Blank(r.0.answer)
    decreases |prompts|
  {
    if prompts == [] then (Exhausted, 0)
    else
      var reply := replies(base, prompts[0]);
      if reply.Err? then (Failed(reply.error), 1)
      else if !Blank(reply.value) then (Won(reply.value), 1)
      else
        var rest := Attempts(prompts[1..], replies, base + 1);
        (rest.0, rest.1 + 1)
  }

  /**
   * `_run_prompt_chain` over the rendered variants `prompts`, with the first
   * call numbered `base`: the outcome, and the prompts sent.
   */
  function Chain(name: string, prompts: seq<string>, replies: Replies, base: nat): (r: (Result<string>, seq<string>))
    ensures prompts == [] ==> r == (Err(ProviderError("No prompt templates found for '" + name + "'.")), [])
    ensures prompts != [] ==> 1 <= |r.1| <= |prompts| && r.1 == prompts[..|r.1|]
    ensures r.0.Ok? ==> r.0.value != [] && IsStripped(r.0.value)
  {
    if prompts == [] then (Err(ProviderError("No prompt templates found for '" + name + "'.")), [])
    else
      var (a, n) := Attempts(prompts, replies, base);
      var outcome :=
        match a
        case Won(answer) => Ok(Strip(answer))
        case Failed(e) => Err(e)
        case Exhausted => Err(GaveUp(name, |prompts|));
      (outcome, prompts[..n])
  }

  // ---------------------------------------------------------------------------
  // The chain, call by call
  // ---------------------------------------------------------------------------

  /** A blank answer moves the loop on to the next variant, one call later. */
  lemma AttemptsBlank(prompts: seq<string>, replies: Replies, base: nat, i: nat)
    requires i < |prompts| && BlankReply(replies, base + i, prompts[i])
    ensures Attempts(prompts[i..], replies, base + i)
      == (Attempts(prompts[i + 1..], replies, base + i + 1).0, Attempts(prompts[i + 1..], replies, base + i + 1).1 + 1)
  {
    var ps := prompts[i..];
    assert ps != [] && ps[0] == prompts[i];
    assert ps[1..] == prompts[i + 1..];
    var reply := replies(base + i, ps[0]);
    assert reply.Ok? && Blank(reply.value);
  }

  /** After `i` blank answers, the loop ends as it would starting at variant `i`. */
  lemma {:induction false} AttemptsAfter(prompts: seq<string>, replies: Replies, base: nat, i: nat)
    requires i <= |prompts| && BlankUpTo(prompts, replies, base, i)
    ensures Attempts(prompts, replies, base)
      == (Attempts(prompts[i..], replies, base + i).0, Attempts(prompts[i..], replies, base + i).1 + i)
  {
    if i > 0 {
      AttemptsAfter(prompts, replies, base, i - 1);
      AttemptsBlank(prompts, replies, base, i - 1);
    }
  }

  /**
   * The first variant whose answer is not blank wins: its stripped answer
   * is the result, and the chain has sent exactly the variants up to it.
   */
  lemma FirstAnswerWins(name: string, prompts: seq<string>, replies: Replies, base: nat, i: nat)
    requires i < |prompts| && BlankUpTo(prompts, replies, base, i)
    requires replies(base + i, prompts[i]).Ok? && !Blank(replies(base + i, prompts[i]).value)
    ensures Chain(name, prompts, replies, base) == (Ok(Strip(replies(base + i, prompts[i]).value)), prompts[..i + 1])
  {
    AttemptsAfter(prompts, replies, base, i);
  }

  /** An error of the backend ends the chain at that variant and is raised as it is. */
  lemma BackendErrorStops(name: string, prompts: seq<string>, replies: Replies, base: nat, i: nat)
    requires i < |prompts| && BlankUpTo(prompts, replies, base, i)
    requires replies(base + i, prompts[i]).Err?
    ensures Chain(name, prompts, replies, base) == (Err(replies(base + i, prompts[i]).error), prompts[..i + 1])
  {
    AttemptsAfter(prompts, replies, base, i);
  }

  /** When every answer is blank, the chain fails after sending every variant. */
  lemma AllBlankFails(name: string, prompts: seq<string>, replies: Replies, base: nat)
    requires prompts != [] && BlankUpTo(prompts, replies, base, |prompts|)
    ensures Chain(name, prompts, replies, base)
      == (Err(GaveUp(name, |prompts|)), prompts)
  {
    AttemptsAfter(prompts, replies, base, |prompts|);
    assert prompts[|prompts|..] == [];
    assert prompts[..|prompts|] == prompts;
  }

  /** Blank answers before index `n` of `prompts[1..]`, after a blank first answer, are blank answers before `n + 1`. */
  lemma BlankShift(prompts: seq<string>, replies: Replies, base: nat, n: nat)
    requires prompts != [] && n < |prompts| && BlankReply(replies, base, prompts[0])
    requires BlankUpTo(prompts[1..], replies, base + 1, n)
    ensures BlankUpTo(prompts, replies, base, n + 1)
  {
    forall j | 0 < j < n + 1 ensures BlankReply(replies, base + j, prompts[j]) {
      assert prompts[1..][j - 1] == prompts[j];
      assert BlankReply(replies, base + 1 + (j - 1), prompts[1..][j - 1]);
    }
  }

  /**
   * Conversely, a loop that found an answer found it at its last call:
   * every earlier answer was blank and the winning answer is the last one.
   */
  lemma {:induction false} WinnerIsLast(prompts: seq<string>, replies: Replies, base: nat)
    requires Attempts(prompts, replies, base).0.Won?
    ensures var n := Attempts(prompts, replies, base).1;
      1 <= n <= |prompts| && BlankUpTo(prompts, replies, base, n - 1)
      && replies(base + n - 1, prompts[n - 1]) == Ok(Attempts(prompts, replies, base).0.answer)
    decreases |prompts|
  {
    var reply := replies(base, prompts[0]);
    if reply.Ok? && Blank(reply.value) {
      var tail := Attempts(prompts[1..], replies, base + 1);
      assert Attempts(prompts, replies, base) == (tail.0, tail.1 + 1);
      WinnerIsLast(prompts[1..], replies, base + 1);
      BlankShift(prompts, replies, base, tail.1 - 1);
      assert prompts[1..][tail.1 - 1] == prompts[tail.1];
    }
  }

  /** A successful chain is a loop that found an answer, stripped, with the variants it sent. */
  lemma ChainOk(name: string, prompts: seq<string>, replies: Replies, base: nat)
    requires Chain(name, prompts, replies, base).0.Ok?
    ensures var a := Attempts(prompts, replies, base);
      a.0.Won? && Chain(name, prompts, replies, base) == (Ok(Strip(a.0.answer)), prompts[..a.1])
      && |prompts[..a.1]| == a.1
  {
  }

  /**
   * No call is made after the variant that ends the loop, by winning or by
   * a backend error: variants after it change neither the outcome nor the
   * prompts sent.
   */
  lemma {:induction false} NothingAfterWinner(prompts: seq<string>, more: seq<string>, replies: Replies, base: nat)
    requires !Attempts(prompts, replies, base).0.Exhausted?
    ensures Attempts(prompts + more, replies, base) == Attempts(prompts, replies, base)
    decreases |prompts|
  {
    assert prompts != [];
    var both := prompts + more;
    assert both[0] == prompts[0];
    var reply := replies(base, prompts[0]);
    if reply.Ok? && Blank(reply.value) {
      assert both[1..] == prompts[1..] + more;
      NothingAfterWinner(prompts[1..], more, replies, base + 1);
      var tail := Attempts(prompts[1..], replies, base + 1);
      assert Attempts(prompts, replies, base) == (tail.0, tail.1 + 1);
      assert Attempts(both, replies, base) == (tail.0, tail.1 + 1);
    }
  }

  /**
   * The same for the whole chain: once a variant has won or its backend call
   * has failed, extra variants change neither the result, error included,
   * nor the prompts sent.
   */
  lemma ChainNothingAfterWinner(name: string, prompts: seq<string>, more: seq<string>, replies: Replies, base: nat)
    requires prompts != [] && !Attempts(prompts, replies, base).0.Exhausted?
    ensures Chain(name, prompts + more, replies, base) == Chain(name, prompts, replies, base)
  {
    NothingAfterWinner(prompts, more, replies, base);
    var n := Attempts(prompts, replies, base).1;
    assert (prompts + more)[..n] == prompts[..n];
  }
}
