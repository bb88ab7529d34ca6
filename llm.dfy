/**
 * The language model behind `ILlmProvider.generate`. Which backend answers
 * and how is not modelled: `replies(k, p)` is what the `k`-th call with
 * prompt `p` returns, or the error it raises, so a backend may answer the
 * same prompt differently on different calls.
 */
module Llm {
  import opened Errors

  type Replies = (nat, string) -> Result<string>

  class LlmProvider {
    /** The answer (or error) of each call, by call number and prompt. */
    const replies: Replies
    /** Every prompt sent so far, in order. */
    var sent: seq<string>

    constructor (replies: Replies)
      ensures this.replies == replies && sent == []
    {
      this.replies := replies;
      sent := [];
    }

    /** `generate(prompt)`: the next answer, with the prompt recorded. */
    method Generate(prompt: string) returns (r: Result<string>)
      modifies this
      ensures r == replies(old(|sent|), prompt)
      ensures sent == old(sent) + [prompt]
    {
      r := replies(|sent|, prompt);
      sent := sent + [prompt];
    }
  }
}
