/** The action codec: outbound framing and inbound decoding and validation.
    JSON parsing and serialisation, UTF-8 decoding and error formatting are
    foreign code; they are injected as the fields of `Env`. */
module Codec {
  import opened Wrappers
  import opened Json
  import opened Errors

  newtype byte = x: int | 0 <= x < 256

  /** The foreign functions a connection uses. `parse` is `JSON.parse` wrapped
      in `_.attempt`: `None` when it throws. `runtimeMessage` is the `message`
      that `new DetoxRuntimeError({ message, hint, debugInfo })` ends up with,
      given the message option and the debug info; the hint the dispatcher
      passes is the same for both of its errors, so it is part of the function. */
  datatype Env = Env(
    parse: string -> Option<Value>,
    stringify: Value -> string,
    utf8: seq<byte> -> string,
    format: Exception -> string,
    runtimeMessage: (string, DebugInfo) -> string)

  /** What the socket delivers: a string, or a buffer of bytes. */
  datatype RawData = Text(text: string) | Bytes(bytes: seq<byte>)

  /** Strings are used as they are; buffers are decoded as UTF-8. */
  function DecodeText(env: Env, raw: RawData): string {
    match raw
    case Text(text) => text
    case Bytes(bytes) => env.utf8(bytes)
  }

  /** The line terminator the remote client's parser needs: a newline, then a space. */
  const TERMINATOR: string := "\n "

  /** The wire payload for a serialised action. */
  function Frame(text: string): string {
    text + TERMINATOR
  }

  /** The text inside a wire payload, when the payload is terminated. */
  function Unframe(wire: string): Option<string> {
    if |wire| >= |TERMINATOR| && wire[|wire| - |TERMINATOR|..] == TERMINATOR
    then Some(wire[..|wire| - |TERMINATOR|])
    else None
  }

  lemma UnframeFrame(text: string)
    ensures Unframe(Frame(text)) == Some(text)
  {
  }

  lemma FrameUnframe(wire: string)
    ensures Unframe(wire).Some? ==> Frame(Unframe(wire).value) == wire
  {
  }

  /** `new DetoxRuntimeError({ message, hint, debugInfo })` as the dispatcher throws it. */
  function RuntimeError(env: Env, message: string, debugInfo: DebugInfo): Exception {
    DetoxRuntimeError(env.runtimeMessage(message, debugInfo), debugInfo)
  }

  /** Validation of a decoded payload: the exception the dispatcher throws
      for it, or the action to hand to the current handler. */
  function Classify(env: Env, parsed: Option<Value>, data: string): (r: Result<Value, Exception>)
    ensures r.Success? <==> parsed.Some? && IsTypedAction(parsed.value)
    ensures r.Success? ==> r.value == parsed.value
    ensures parsed.None? ==> r == Failure(RuntimeError(env, INVALID_JSON, Payload(data)))
    ensures parsed == Some(Null) ==> r == Failure(OtherException(NULL_TYPE_READ))
    ensures parsed.Some? && !parsed.value.Null? && !IsTypedAction(parsed.value) ==>
              r == Failure(RuntimeError(env, MISSING_TYPE, OffendingAction(parsed.value)))
  {
    match parsed
    case None => Failure(RuntimeError(env, INVALID_JSON, Payload(data)))
    case Some(action) =>
      match TypeProperty(action)
      case Failure(typeError) => Failure(OtherException(typeError))
      case Success(t) =>
        if !Truthy(t) then Failure(RuntimeError(env, MISSING_TYPE, OffendingAction(action)))
        else Success(action)
  }
}
