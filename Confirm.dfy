/** `parse_confirmation` (app/agents/confirm.py): whether the user agreed to have the
    letters written. The API key's presence and the outcome of the model request are inputs. */
module Confirm {
  import opened Wrappers
  import opened Text

  const MissingKeyError: string := "Missing OPENAI_API_KEY"

  /** The model's decision after `(decision or "").strip().lower()`. */
  function NormalizedDecision(decision: Option<string>): string {
    Lower(Strip(decision.GetOr("")))
  }

  /** A blank message is no answer, decided before the key is looked at; without a key
      any other message raises; a failed request raises its own error; otherwise only a
      normalized "yes" or "no" is an answer, and everything else ("unclear", empty,
      missing) is none. `reply` is the request's outcome: its error, or the decision. */
  function ParseConfirmation(message: string, hasApiKey: bool, reply: Result<Option<string>>)
    : (r: Result<Option<bool>>)
    ensures IsBlank(message) ==> r == Ok(None)
    ensures !IsBlank(message) && !hasApiKey ==> r == Err(MissingKeyError)
    ensures !IsBlank(message) && hasApiKey && reply.Err? ==> r == Err(reply.error)
    ensures !IsBlank(message) && hasApiKey && reply.Ok? ==>
              && r.Ok?
              && (r.value == Some(true) <==> NormalizedDecision(reply.value) == "yes")
              && (r.value == Some(false) <==> NormalizedDecision(reply.value) == "no")
              && (r.value == None <==> NormalizedDecision(reply.value) != "yes" && NormalizedDecision(reply.value) != "no")
  {
    StripEmptyIff(message);
    if Strip(message) == "" then Ok(None)
    else if !hasApiKey then Err(MissingKeyError)
    else match reply
      case Err(e) => Err(e)
      case Ok(decision) =>
        var normalized := NormalizedDecision(decision);
        if normalized == "yes" then Ok(Some(true))
        else if normalized == "no" then Ok(Some(false))
        else Ok(None)
  }
}
