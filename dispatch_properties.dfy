/** The promises of `_onMessage` and `sendAction`, proved about `Receive`
    and `Send`. */
module DispatchProperties {
  import opened Wrappers
  import opened Json
  import opened Errors
  import opened Codec
  import opened Dispatch
  import opened ScriptProperties

  /** The capability calls the handlers made while one message was processed:
      those of `handle`, then, when it threw, those of `onError`. */
  function HandlerScripts(env: Env, s: State, raw: RawData, handlers: Handlers): seq<Effect> {
    var data := DecodeText(env, raw);
    match Classify(env, env.parse(data), data)
    case Failure(_) => []
    case Success(action) =>
      var first := handlers.handle(s.handler, action);
      match first.outcome
      case Returned => first.effects
      case Threw(e) =>
        first.effects + handlers.onError(LastHandler(s.handler, first.effects), e, action).effects
  }

  /** A payload that does not parse, parses to `null`, or has no truthy
      `type` reaches no handler and changes nothing but the log: one GET
      trace, then exactly one warning with the reason (for the two
      protocol violations, the `message` their DetoxRuntimeError was built with). */
  lemma ReceiveRejected(env: Env, s: State, raw: RawData, handlers: Handlers)
    requires var parsed := env.parse(DecodeText(env, raw));
      !(parsed.Some? && IsTypedAction(parsed.value))
    ensures var data := DecodeText(env, raw);
      var parsed := env.parse(data);
      var reason := if parsed.None? then env.runtimeMessage(INVALID_JSON, Payload(data))
                    else if parsed.value.Null? then NULL_TYPE_READ
                    else env.runtimeMessage(MISSING_TYPE, OffendingAction(parsed.value));
      Receive(env, s, raw, handlers)
        == s.(logs := s.logs + [LogEntry(s.log, Trace, GET_FROM, data), LogEntry(s.log, Warn, ERROR, reason)])
  {
  }

  /** A typed action whose `handle` returns: `handle` is called once, on the
      handler in the slot at entry, `onError` is not called, and the rest of
      the new state is what the handler's capability calls made it. */
  lemma ReceiveHandled(env: Env, s: State, raw: RawData, handlers: Handlers, action: Value)
    requires env.parse(DecodeText(env, raw)) == Some(action) && IsTypedAction(action)
    requires handlers.handle(s.handler, action).outcome == Returned
    ensures var effects := handlers.handle(s.handler, action).effects;
      var r := Receive(env, s, raw, handlers);
      && r.calls == s.calls + [HandleCalled(s.handler, action)]
      && r.handler == LastHandler(s.handler, effects)
      && r.sent == s.sent + Frames(env, effects)
      && r.logs == s.logs + [LogEntry(s.log, Trace, GET_FROM, DecodeText(env, raw))]
                   + ScriptLogs(env, s.log, s.apiLog, effects)
      && r.log == s.log + DetailsOf(effects)
      && r.sessionManager == s.sessionManager + Registrations(s.webSocket, effects)
      && r.webSocket == s.webSocket && r.apiLog == s.apiLog
  {
    var data := DecodeText(env, raw);
    var traced := s.(logs := s.logs + [LogEntry(s.log, Trace, GET_FROM, data)]);
    var called := traced.(calls := traced.calls + [HandleCalled(s.handler, action)]);
    var effects := handlers.handle(s.handler, action).effects;
    RunEffectsSlot(env, called, effects);
    RunEffectsFrames(env, called, effects);
    RunEffectsLogging(env, called, effects);
    RunEffectsRegistrations(env, called, effects);
  }

  /** A typed action whose `handle` throws `e`: `onError(e, action)` is
      called once, on the handler in the slot after `handle` ran, which is
      the replacement when `handle` called `setHandler`. */
  lemma ReceiveHandlerThrew(env: Env, s: State, raw: RawData, handlers: Handlers, action: Value, e: Exception)
    requires env.parse(DecodeText(env, raw)) == Some(action) && IsTypedAction(action)
    requires handlers.handle(s.handler, action).outcome == Threw(e)
    ensures var first := handlers.handle(s.handler, action).effects;
      var replacement := LastHandler(s.handler, first);
      var second := handlers.onError(replacement, e, action).effects;
      var r := Receive(env, s, raw, handlers);
      && r.calls == s.calls + [HandleCalled(s.handler, action), OnErrorCalled(replacement, e, action)]
      && r.handler == LastHandler(replacement, second)
      && r.sent == s.sent + Frames(env, first) + Frames(env, second)
      && r.sessionManager == s.sessionManager + Registrations(s.webSocket, first) + Registrations(s.webSocket, second)
      && r.webSocket == s.webSocket && r.apiLog == s.apiLog
  {
    var data := DecodeText(env, raw);
    var traced := s.(logs := s.logs + [LogEntry(s.log, Trace, GET_FROM, data)]);
    var called := traced.(calls := traced.calls + [HandleCalled(s.handler, action)]);
    var first := handlers.handle(s.handler, action).effects;
    var handled := RunEffects(env, called, first);
    RunEffectsSlot(env, called, first);
    RunEffectsFrames(env, called, first);
    RunEffectsLogging(env, called, first);
    RunEffectsRegistrations(env, called, first);
    var replacement := LastHandler(s.handler, first);
    var second := handlers.onError(replacement, e, action).effects;
    var recalled := handled.(calls := handled.calls + [OnErrorCalled(replacement, e, action)]);
    RunEffectsSlot(env, recalled, second);
    RunEffectsFrames(env, recalled, second);
    RunEffectsLogging(env, recalled, second);
    RunEffectsRegistrations(env, recalled, second);
  }

  /** The log of a typed action whose `handle` throws `e`: the GET trace, the
      entries of both handler methods, and, only when `onError` throws `e2`
      too, one warning with `e2`'s text on the logger as it then stands. */
  lemma ReceiveHandlerThrewLogs(env: Env, s: State, raw: RawData, handlers: Handlers, action: Value, e: Exception)
    requires env.parse(DecodeText(env, raw)) == Some(action) && IsTypedAction(action)
    requires handlers.handle(s.handler, action).outcome == Threw(e)
    ensures var first := handlers.handle(s.handler, action).effects;
      var recovery := handlers.onError(LastHandler(s.handler, first), e, action);
      var second := recovery.effects;
      var logger := s.log + DetailsOf(first) + DetailsOf(second);
      var r := Receive(env, s, raw, handlers);
      && r.log == logger
      && r.logs == s.logs + [LogEntry(s.log, Trace, GET_FROM, DecodeText(env, raw))]
                   + ScriptLogs(env, s.log, s.apiLog, first)
                   + ScriptLogs(env, s.log + DetailsOf(first), s.apiLog, second)
                   + (match recovery.outcome
                      case Returned => []
                      case Threw(e2) => [LogEntry(logger, Warn, ERROR, WarnText(e2))])
  {
    var data := DecodeText(env, raw);
    var traced := s.(logs := s.logs + [LogEntry(s.log, Trace, GET_FROM, data)]);
    var called := traced.(calls := traced.calls + [HandleCalled(s.handler, action)]);
    var first := handlers.handle(s.handler, action).effects;
    var handled := RunEffects(env, called, first);
    RunEffectsSlot(env, called, first);
    RunEffectsFrames(env, called, first);
    RunEffectsLogging(env, called, first);
    RunEffectsRegistrations(env, called, first);
    var replacement := LastHandler(s.handler, first);
    var second := handlers.onError(replacement, e, action).effects;
    var recalled := handled.(calls := handled.calls + [OnErrorCalled(replacement, e, action)]);
    RunEffectsFrames(env, recalled, second);
    RunEffectsLogging(env, recalled, second);
    RunEffectsRegistrations(env, recalled, second);
  }

  /** Whatever the payload, the first thing logged is one GET trace with the
      decoded text on the logger current at entry, and nothing logged before
      is lost. */
  lemma ReceiveTracesFirst(env: Env, s: State, raw: RawData, handlers: Handlers)
    ensures var r := Receive(env, s, raw, handlers);
      |r.logs| > |s.logs|
      && r.logs[..|s.logs| + 1] == s.logs + [LogEntry(s.log, Trace, GET_FROM, DecodeText(env, raw))]
  {
    var data := DecodeText(env, raw);
    var get := LogEntry(s.log, Trace, GET_FROM, data);
    var r := Receive(env, s, raw, handlers);
    var parsed := env.parse(data);
    if parsed.Some? && IsTypedAction(parsed.value) {
      var action := parsed.value;
      match handlers.handle(s.handler, action).outcome
      case Returned =>
        ReceiveHandled(env, s, raw, handlers, action);
        var rest := ScriptLogs(env, s.log, s.apiLog, handlers.handle(s.handler, action).effects);
        assert r.logs == (s.logs + [get]) + rest;
      case Threw(e) =>
        ReceiveHandlerThrewLogs(env, s, raw, handlers, action, e);
        var first := handlers.handle(s.handler, action).effects;
        var recovery := handlers.onError(LastHandler(s.handler, first), e, action);
        var logger := s.log + DetailsOf(first) + DetailsOf(recovery.effects);
        var rest := ScriptLogs(env, s.log, s.apiLog, first)
                    + ScriptLogs(env, s.log + DetailsOf(first), s.apiLog, recovery.effects)
                    + (match recovery.outcome
                       case Returned => []
                       case Threw(e2) => [LogEntry(logger, Warn, ERROR, WarnText(e2))]);
        assert r.logs == (s.logs + [get]) + rest;
    } else {
      ReceiveRejected(env, s, raw, handlers);
    }
  }

  /** Outside the log and the handler-call record, a message changes the
      connection only through the handlers' capability calls: the slot holds
      the handler last set (so it changes only through `setHandler`), the
      socket sees exactly the frames they sent, the logger grows by exactly
      the details they appended, the session manager sees only their
      registrations (never an unregistration), and the socket identity and
      the captured logger stay. */
  lemma ReceiveActsThroughCapabilities(env: Env, s: State, raw: RawData, handlers: Handlers)
    ensures var scripts := HandlerScripts(env, s, raw, handlers);
      var r := Receive(env, s, raw, handlers);
      && r.handler == LastHandler(s.handler, scripts)
      && (r.handler == s.handler || CallSetHandler(r.handler) in scripts)
      && r.sent == s.sent + Frames(env, scripts)
      && r.log == s.log + DetailsOf(scripts)
      && r.sessionManager == s.sessionManager + Registrations(s.webSocket, scripts)
      && Unregistrations(r.sessionManager) == Unregistrations(s.sessionManager)
      && r.webSocket == s.webSocket
      && r.apiLog == s.apiLog
  {
    var scripts := HandlerScripts(env, s, raw, handlers);
    var r := Receive(env, s, raw, handlers);
    var data := DecodeText(env, raw);
    var parsed := env.parse(data);
    if parsed.Some? && IsTypedAction(parsed.value) {
      var action := parsed.value;
      var first := handlers.handle(s.handler, action).effects;
      match handlers.handle(s.handler, action).outcome
      case Returned =>
        ReceiveHandled(env, s, raw, handlers, action);
      case Threw(e) =>
        ReceiveHandlerThrew(env, s, raw, handlers, action, e);
        ReceiveHandlerThrewLogs(env, s, raw, handlers, action, e);
        var replacement := LastHandler(s.handler, first);
        var second := handlers.onError(replacement, e, action).effects;
        assert scripts == first + second;
        LastHandlerAppend(s.handler, first, second);
        FramesAppend(env, first, second);
        DetailsOfAppend(first, second);
        RegistrationsAppend(s.webSocket, first, second);
    } else {
      ReceiveRejected(env, s, raw, handlers);
    }
    LastHandlerIsSet(s.handler, scripts);
    RegistrationsNeverUnregister(s.webSocket, scripts);
    UnregistrationsAppend(s.sessionManager, Registrations(s.webSocket, scripts));
  }

  /** After `handle` replaces the handler and returns, the next typed action
      goes to the replacement, never to the handler it replaced. */
  lemma NextActionGoesToReplacement(env: Env, s: State, raw1: RawData, handlers1: Handlers, action1: Value,
                                    raw2: RawData, handlers2: Handlers, action2: Value)
    requires env.parse(DecodeText(env, raw1)) == Some(action1) && IsTypedAction(action1)
    requires handlers1.handle(s.handler, action1).outcome == Returned
    requires env.parse(DecodeText(env, raw2)) == Some(action2) && IsTypedAction(action2)
    ensures var replacement := LastHandler(s.handler, handlers1.handle(s.handler, action1).effects);
      var r := Receive(env, Receive(env, s, raw1, handlers1), raw2, handlers2);
      |r.calls| > |s.calls| + 1
      && r.calls[|s.calls|] == HandleCalled(s.handler, action1)
      && r.calls[|s.calls| + 1] == HandleCalled(replacement, action2)
  {
    ReceiveHandled(env, s, raw1, handlers1, action1);
    var middle := Receive(env, s, raw1, handlers1);
    ReceiveHandlerCalledFirst(env, middle, raw2, handlers2, action2);
  }

  /** A typed action is always handed to `handle` of the handler in the slot
      at entry, before any other handler call for it. */
  lemma ReceiveHandlerCalledFirst(env: Env, s: State, raw: RawData, handlers: Handlers, action: Value)
    requires env.parse(DecodeText(env, raw)) == Some(action) && IsTypedAction(action)
    ensures var r := Receive(env, s, raw, handlers);
      |r.calls| > |s.calls|
      && r.calls[..|s.calls| + 1] == s.calls + [HandleCalled(s.handler, action)]
  {
    match handlers.handle(s.handler, action).outcome
    case Returned =>
      ReceiveHandled(env, s, raw, handlers, action);
    case Threw(e) =>
      ReceiveHandlerThrew(env, s, raw, handlers, action, e);
  }

  /** The sent payload, with its terminator stripped, parses back to the
      action whenever the JSON library round-trips it. */
  lemma SentFrameParses(env: Env, s: State, action: Value)
    requires env.parse(env.stringify(action)) == Some(action)
    ensures var r := Send(env, s, action);
      |r.sent| == |s.sent| + 1
      && Unframe(r.sent[|s.sent|]).Some?
      && env.parse(Unframe(r.sent[|s.sent|]).value) == Some(action)
  {
  }

  /** A connection that receives, as text, the payload another connection sent
      for a typed action hands that action to its current handler. */
  lemma EchoedActionIsHandled(env: Env, sender: State, receiver: State, action: Value, handlers: Handlers)
    requires env.parse(env.stringify(action)) == Some(action) && IsTypedAction(action)
    ensures var wire := Send(env, sender, action).sent[|sender.sent|];
      Unframe(wire).Some?
      && var r := Receive(env, receiver, Text(Unframe(wire).value), handlers);
      |r.calls| > |receiver.calls|
      && r.calls[|receiver.calls|] == HandleCalled(receiver.handler, action)
  {
    SentFrameParses(env, sender, action);
    var wire := Send(env, sender, action).sent[|sender.sent|];
    ReceiveHandlerCalledFirst(env, receiver, Text(Unframe(wire).value), handlers, action);
  }

  const HELLO: Value := Obj(map["type" := Str("HELLO")])

  /** The client sends `not-json`, then `{"type":"HELLO"}`: the first is
      logged as invalid and reaches no handler, the connection carries on,
      and the second reaches `handle` of the same handler. */
  lemma InvalidThenHello(env: Env, s: State, handlers: Handlers, helloText: string)
    requires env.parse("not-json") == None
    requires env.parse(helloText) == Some(HELLO)
    ensures var afterJunk := Receive(env, s, Text("not-json"), handlers);
      && afterJunk == s.(logs := s.logs + [LogEntry(s.log, Trace, GET_FROM, "not-json"),
                                           LogEntry(s.log, Warn, ERROR, env.runtimeMessage(INVALID_JSON, Payload("not-json")))])
      && var r := Receive(env, afterJunk, Text(helloText), handlers);
      |r.calls| > |s.calls| && r.calls[|s.calls|] == HandleCalled(s.handler, HELLO)
  {
    ReceiveRejected(env, s, Text("not-json"), handlers);
    var afterJunk := Receive(env, s, Text("not-json"), handlers);
    assert IsTypedAction(HELLO);
    ReceiveHandlerCalledFirst(env, afterJunk, Text(helloText), handlers, HELLO);
  }
}
