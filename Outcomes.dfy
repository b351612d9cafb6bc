/** Failure-carrying values shared by the model, and the errors the two
    programs raise. */
module Outcomes {

  /** A value that may be absent: Python's `None`, TypeScript's `null` or `undefined`. */
  datatype Option<+T> = None | Some(value: T) {
    function GetOr(default: T): T {
      match this
      case Some(v) => v
      case None => default
    }
  }

  /** The outcome of a step that either returns normally or raises. */
  datatype Result<+T, +E> = Success(value: T) | Failure(error: E)

  /** The exceptions that reach a caller of the session manager or its driver. */
  datatype Error =
    | NotInitialized        // execute before a successful initialize
    | MissingKeys           // one of the two API keys is unset or empty
    | Raised(reason: string) // whatever a backend or the agent constructor raised, unchanged

  const NotInitializedMessage := "Sandbox not initialized. Call initialize() first."
  const MissingKeysMessage := "E2B_API_KEY and ANTHROPIC_API_KEY must be set"

  /** The text the operator sees for an error. */
  function Message(e: Error): string {
    match e
    case NotInitialized => NotInitializedMessage
    case MissingKeys => MissingKeysMessage
    case Raised(reason) => reason
  }
}
