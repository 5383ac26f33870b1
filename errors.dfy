/** The two kinds of thrown value the dispatcher tells apart when it logs. */
module Errors {
  import opened Json

  /** The `debugInfo` a protocol violation carries: the raw text or the parsed action. */
  datatype DebugInfo = NoDebugInfo | Payload(text: string) | OffendingAction(action: Value)

  datatype Exception =
    | DetoxRuntimeError(message: string, debugInfo: DebugInfo)   // `message` as the constructor set it
    | OtherException(text: string)   // any other thrown value whose `${error}` conversion succeeds, with that string

  const INVALID_JSON: string := "The payload received is not a valid JSON."
  const MISSING_TYPE: string := "Cannot process an action without a type."

  /** What the dispatcher's outer `catch` writes: a DetoxRuntimeError's
      `message`, anything else stringified whole. */
  function WarnText(e: Exception): string {
    match e
    case DetoxRuntimeError(message, _) => message
    case OtherException(text) => text
  }
}
