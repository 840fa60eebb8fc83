/**
  The server actions that wrap the hosted language model (app/actions.ts). The
  model itself is an oracle: a reply is either its text or a failure.
*/
module Actions {
  import opened Wrappers

  datatype Platform = LinkedIn | Facebook {
    /** The string value of the `Platform` union type. */
    function Name(): string {
      match this
      case LinkedIn => "linkedin"
      case Facebook => "facebook"
    }
  }

  /** What one call of the hosted language model gives back. */
  datatype ModelReply = Completion(text: string) | ModelFailure(message: string)

  /** The success-or-error tagged union the generation actions resolve to:
      `{ query, explanation? }` or `{ type, message }`. */
  datatype QueryResponse =
    | QueryOk(query: string, explanation: Option<string>)
    | QueryError(kind: string, message: string)

  /** How a call of a server action settles on the client: it resolves to a
      value, or it rejects with an `Error` (its message) or a non-`Error` value. */
  datatype Settled<+T> = Resolved(value: T) | Rejected(errorMessage: Option<string>)

  const ApiError := "API_ERROR"
  const GenerateFailedMessage := "Failed to generate boolean query."
  const FineTuneFailedMessage := "Er is een fout opgetreden bij het verfijnen van de zoekopdracht."

  /** `GenerateBooleanAction`: the model text is returned as the query,
      unchanged and without an explanation; any failure becomes one fixed
      API_ERROR response, whatever the model's own message was. */
  function GenerateBooleanAction(reply: ModelReply): (r: QueryResponse)
    ensures r.QueryOk? <==> reply.Completion?
    ensures reply.Completion? ==> r.query == reply.text && r.explanation == None
    ensures reply.ModelFailure? ==> r == QueryError(ApiError, GenerateFailedMessage)
  {
    match reply
    case Completion(text) => QueryOk(text, None)
    case ModelFailure(_) => QueryError(ApiError, GenerateFailedMessage)
  }

  /** `FineTuneQueryAction`: the same contract with its own failure message. */
  function FineTuneQueryAction(reply: ModelReply): (r: QueryResponse)
    ensures r.QueryOk? <==> reply.Completion?
    ensures reply.Completion? ==> r.query == reply.text && r.explanation == None
    ensures reply.ModelFailure? ==> r == QueryError(ApiError, FineTuneFailedMessage)
  {
    match reply
    case Completion(text) => QueryOk(text, None)
    case ModelFailure(_) => QueryError(ApiError, FineTuneFailedMessage)
  }
}
