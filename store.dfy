/**
 * The session store (`IContextProvider`): each session id maps to the text
 * of that session's knowledge base. The files, JSON encoding and
 * timestamps of `FileContextProvider` are left out; `saved` records every
 * save in order, so a caller's contract can say when it saves.
 */
module Sessions {
  import opened Errors
  import opened PyStr

  class SessionStore {
    /** Session id to knowledge-base text. */
    var sessions: map<string, string>
    /** Every `save_session`, in order. */
    var saved: seq<(string, string)>

    constructor (initial: map<string, string>)
      ensures sessions == initial && saved == []
    {
      sessions := initial;
      saved := [];
    }

    /** `get_session`: the stored text, or `NotFoundError` for an unknown id. */
    function GetSession(id: string): (r: Result<string>)
      reads this
      ensures r.Ok? <==> id in sessions
      ensures r.Ok? ==> r.value == sessions[id]
      ensures r.Err? ==> r.error == NotFoundError("Session '" + id + "' not found.")
    {
      if id in sessions then Ok(sessions[id]) else Err(NotFoundError("Session '" + id + "' not found."))
    }

    /** `save_session`: the session's text is replaced and the save recorded. */
    method SaveSession(id: string, kb: string)
      modifies this
      ensures sessions == old(sessions)[id := kb]
      ensures saved == old(saved) + [(id, kb)]
    {
      sessions := sessions[id := kb];
      saved := saved + [(id, kb)];
    }
  }

  /**
   * `update_kb` once the session exists or not: the validator's verdict
   * (`None` when the text is valid, otherwise its error message) decides
   * between the success message and a `ValidationError`.
   */
  function UpdateOutcome(lookup: Result<string>, verdict: Option<string>, success: string): (r: Result<string>)
    ensures lookup.Err? ==> r == Err(lookup.error)
    ensures lookup.Ok? && verdict.Some? ==> r == Err(ValidationError("KB validation failed: " + verdict.value))
    ensures r.Ok? <==> lookup.Ok? && verdict.None?
  {
    if lookup.Err? then Err(lookup.error)
    else if verdict.Some? then Err(ValidationError("KB validation failed: " + verdict.value))
    else Ok(success)
  }
}
