/** What a handler's capability calls do to a connection, summarised field
    by field, each summary proved against `RunEffects`. */
module ScriptProperties {
  import opened Json
  import opened Codec
  import opened Dispatch

  /** The handler in the slot after `effects`: the one named by the last
      `setHandler` call, or `current` when there is none. */
  function LastHandler(current: Handler, effects: seq<Effect>): Handler
    decreases |effects|
  {
    if effects == [] then current
    else if effects[|effects| - 1].CallSetHandler? then effects[|effects| - 1].next
    else LastHandler(current, effects[..|effects| - 1])
  }

  /** The payloads written by the `sendAction` calls among `effects`. */
  function Frames(env: Env, effects: seq<Effect>): seq<string>
    decreases |effects|
  {
    if effects == [] then []
    else (if effects[0].CallSendAction? then [Frame(env.stringify(effects[0].action))] else [])
         + Frames(env, effects[1..])
  }

  /** The details appended by the `appendLogDetails` calls among `effects`. */
  function DetailsOf(effects: seq<Effect>): Context
    decreases |effects|
  {
    if effects == [] then []
    else (if effects[0].CallAppendLogDetails? then [effects[0].details] else [])
         + DetailsOf(effects[1..])
  }

  /** The session-manager calls made by the `registerSession` calls among
      `effects`, for the connection with socket `connection`. */
  function Registrations(connection: SocketId, effects: seq<Effect>): seq<SessionManagerCall>
    decreases |effects|
  {
    if effects == [] then []
    else (if effects[0].CallRegisterSession? then [RegisterSessionCalled(connection, effects[0].params)] else [])
         + Registrations(connection, effects[1..])
  }

  /** The log entries `effects` produce when they start on logger `log`:
      `sendAction` traces on the current logger, which grows with each
      `appendLogDetails`; `api.log` writes on the captured logger `apiLog`. */
  function ScriptLogs(env: Env, log: Context, apiLog: Context, effects: seq<Effect>): seq<LogEntry>
    decreases |effects|
  {
    if effects == [] then []
    else match effects[0]
      case CallSendAction(action) =>
        [LogEntry(log, Trace, SEND_TO, env.stringify(action))] + ScriptLogs(env, log, apiLog, effects[1..])
      case CallAppendLogDetails(details) => ScriptLogs(env, log + [details], apiLog, effects[1..])
      case CallLog(level, event, text) =>
        [LogEntry(apiLog, level, event, text)] + ScriptLogs(env, log, apiLog, effects[1..])
      case _ => ScriptLogs(env, log, apiLog, effects[1..])
  }

  /** Counts the `unregisterConnection` calls. */
  function Unregistrations(calls: seq<SessionManagerCall>): nat
    decreases |calls|
  {
    if calls == [] then 0
    else (if calls[0].UnregisterConnectionCalled? then 1 else 0) + Unregistrations(calls[1..])
  }

  lemma {:induction false} LastHandlerCons(current: Handler, e: Effect, rest: seq<Effect>)
    ensures LastHandler(current, [e] + rest)
         == LastHandler(if e.CallSetHandler? then e.next else current, rest)
    decreases |rest|
  {
    if rest != [] {
      var n := |rest| - 1;
      assert ([e] + rest)[..n + 1] == [e] + rest[..n];
      LastHandlerCons(current, e, rest[..n]);
    }
  }

  lemma {:induction false} LastHandlerAppend(current: Handler, a: seq<Effect>, b: seq<Effect>)
    ensures LastHandler(current, a + b) == LastHandler(LastHandler(current, a), b)
    decreases |b|
  {
    if b == [] {
      assert a + b == a;
    } else {
      var n := |b| - 1;
      assert (a + b)[..|a| + n] == a + b[..n];
      LastHandlerAppend(current, a, b[..n]);
    }
  }

  /** The slot only ever holds what it held before or a handler some
      `setHandler` call named. */
  lemma {:induction false} LastHandlerIsSet(current: Handler, effects: seq<Effect>)
    ensures LastHandler(current, effects) == current
         || CallSetHandler(LastHandler(current, effects)) in effects
    decreases |effects|
  {
    if effects != [] && !effects[|effects| - 1].CallSetHandler? {
      var n := |effects| - 1;
      LastHandlerIsSet(current, effects[..n]);
      if LastHandler(current, effects) != current {
        assert effects[..n] <= effects;
        assert CallSetHandler(LastHandler(current, effects)) in effects[..n];
      }
    }
  }

  /** The slot after a handler's capability calls is the last handler it set. */
  lemma {:induction false} RunEffectsSlot(env: Env, s: State, effects: seq<Effect>)
    ensures RunEffects(env, s, effects).handler == LastHandler(s.handler, effects)
    decreases |effects|
  {
    if effects != [] {
      RunEffectsSlot(env, Apply(env, s, effects[0]), effects[1..]);
      assert effects == [effects[0]] + effects[1..];
      LastHandlerCons(s.handler, effects[0], effects[1..]);
    }
  }

  /** A handler's capability calls write exactly the frames of their
      `sendAction` calls to the socket, in order, and remove nothing. */
  lemma {:induction false} RunEffectsFrames(env: Env, s: State, effects: seq<Effect>)
    ensures RunEffects(env, s, effects).sent == s.sent + Frames(env, effects)
    decreases |effects|
  {
    if effects != [] {
      var next := Apply(env, s, effects[0]);
      RunEffectsFrames(env, next, effects[1..]);
      var head := if effects[0].CallSendAction? then [Frame(env.stringify(effects[0].action))] else [];
      assert next.sent == s.sent + head;
      assert Frames(env, effects) == head + Frames(env, effects[1..]);
      assert (s.sent + head) + Frames(env, effects[1..]) == s.sent + (head + Frames(env, effects[1..]));
    }
  }

  /** A handler's capability calls add exactly their log entries and their
      details, in order, and remove nothing. */
  lemma {:induction false} RunEffectsLogging(env: Env, s: State, effects: seq<Effect>)
    ensures var r := RunEffects(env, s, effects);
      && r.logs == s.logs + ScriptLogs(env, s.log, s.apiLog, effects)
      && r.log == s.log + DetailsOf(effects)
    decreases |effects|
  {
    if effects != [] {
      var next := Apply(env, s, effects[0]);
      RunEffectsLogging(env, next, effects[1..]);
      var rest := effects[1..];
      match effects[0] {
        case CallSendAction(action) =>
          var entry := LogEntry(s.log, Trace, SEND_TO, env.stringify(action));
          assert next.logs == s.logs + [entry] && next.log == s.log;
          assert ScriptLogs(env, s.log, s.apiLog, effects) == [entry] + ScriptLogs(env, s.log, s.apiLog, rest);
          assert (s.logs + [entry]) + ScriptLogs(env, s.log, s.apiLog, rest)
              == s.logs + ([entry] + ScriptLogs(env, s.log, s.apiLog, rest));
        case CallAppendLogDetails(details) =>
          assert next.log == s.log + [details] && next.logs == s.logs;
          assert DetailsOf(effects) == [details] + DetailsOf(rest);
          assert (s.log + [details]) + DetailsOf(rest) == s.log + ([details] + DetailsOf(rest));
        case CallLog(level, event, text) =>
          var entry := LogEntry(s.apiLog, level, event, text);
          assert next.logs == s.logs + [entry] && next.log == s.log;
          assert ScriptLogs(env, s.log, s.apiLog, effects) == [entry] + ScriptLogs(env, s.log, s.apiLog, rest);
          assert (s.logs + [entry]) + ScriptLogs(env, s.log, s.apiLog, rest)
              == s.logs + ([entry] + ScriptLogs(env, s.log, s.apiLog, rest));
        case _ =>
          assert next.logs == s.logs && next.log == s.log;
      }
    }
  }

  /** A handler's capability calls register sessions and nothing else on the
      session manager, call no handler, and keep the socket and the captured logger. */
  lemma {:induction false} RunEffectsRegistrations(env: Env, s: State, effects: seq<Effect>)
    ensures var r := RunEffects(env, s, effects);
      && r.sessionManager == s.sessionManager + Registrations(s.webSocket, effects)
      && r.calls == s.calls
      && r.webSocket == s.webSocket
      && r.apiLog == s.apiLog
    decreases |effects|
  {
    if effects != [] {
      RunEffectsRegistrations(env, Apply(env, s, effects[0]), effects[1..]);
    }
  }

  lemma {:induction false} FramesAppend(env: Env, a: seq<Effect>, b: seq<Effect>)
    ensures Frames(env, a + b) == Frames(env, a) + Frames(env, b)
    decreases |a|
  {
    if a == [] {
      assert a + b == b;
    } else {
      var head := if a[0].CallSendAction? then [Frame(env.stringify(a[0].action))] else [];
      assert (a + b)[0] == a[0];
      assert (a + b)[1..] == a[1..] + b;
      FramesAppend(env, a[1..], b);
      assert Frames(env, a + b) == head + Frames(env, a[1..] + b);
      assert head + (Frames(env, a[1..]) + Frames(env, b)) == (head + Frames(env, a[1..])) + Frames(env, b);
    }
  }

  lemma {:induction false} DetailsOfAppend(a: seq<Effect>, b: seq<Effect>)
    ensures DetailsOf(a + b) == DetailsOf(a) + DetailsOf(b)
    decreases |a|
  {
    if a == [] {
      assert a + b == b;
    } else {
      var head := if a[0].CallAppendLogDetails? then [a[0].details] else [];
      assert (a + b)[0] == a[0];
      assert (a + b)[1..] == a[1..] + b;
      DetailsOfAppend(a[1..], b);
      assert DetailsOf(a + b) == head + DetailsOf(a[1..] + b);
      assert head + (DetailsOf(a[1..]) + DetailsOf(b)) == (head + DetailsOf(a[1..])) + DetailsOf(b);
    }
  }

  lemma {:induction false} RegistrationsAppend(connection: SocketId, a: seq<Effect>, b: seq<Effect>)
    ensures Registrations(connection, a + b) == Registrations(connection, a) + Registrations(connection, b)
    decreases |a|
  {
    if a == [] {
      assert a + b == b;
    } else {
      var head := if a[0].CallRegisterSession? then [RegisterSessionCalled(connection, a[0].params)] else [];
      assert (a + b)[0] == a[0];
      assert (a + b)[1..] == a[1..] + b;
      RegistrationsAppend(connection, a[1..], b);
      assert Registrations(connection, a + b) == head + Registrations(connection, a[1..] + b);
      assert head + (Registrations(connection, a[1..]) + Registrations(connection, b))
          == (head + Registrations(connection, a[1..])) + Registrations(connection, b);
    }
  }

  lemma {:induction false} UnregistrationsAppend(a: seq<SessionManagerCall>, b: seq<SessionManagerCall>)
    ensures Unregistrations(a + b) == Unregistrations(a) + Unregistrations(b)
    decreases |a|
  {
    if a == [] {
      assert a + b == b;
    } else {
      assert (a + b)[1..] == a[1..] + b;
      UnregistrationsAppend(a[1..], b);
    }
  }

  /** Handlers can register sessions but never unregister a connection. */
  lemma {:induction false} RegistrationsNeverUnregister(connection: SocketId, effects: seq<Effect>)
    ensures Unregistrations(Registrations(connection, effects)) == 0
    decreases |effects|
  {
    if effects != [] {
      RegistrationsNeverUnregister(connection, effects[1..]);
      var head := if effects[0].CallRegisterSession? then [RegisterSessionCalled(connection, effects[0].params)] else [];
      UnregistrationsAppend(head, Registrations(connection, effects[1..]));
    }
  }

  /** The `api.log` getter keeps returning the logger captured at
      construction: whatever capability calls a handler made before (however
      many details it appended to the connection's own logger), its next
      `api.log` call writes one entry on the captured logger and changes
      nothing else. */
  lemma {:induction false} ApiLogIgnoresAppendedDetails(env: Env, s: State, before: seq<Effect>,
                                                        level: Level, event: string, text: string)
    ensures var prior := RunEffects(env, s, before);
      RunEffects(env, s, before + [CallLog(level, event, text)])
        == prior.(logs := prior.logs + [LogEntry(s.apiLog, level, event, text)])
    decreases |before|
  {
    var call := CallLog(level, event, text);
    if before == [] {
      assert before + [call] == [call];
      assert [call][1..] == [];
    } else {
      assert (before + [call])[0] == before[0];
      assert (before + [call])[1..] == before[1..] + [call];
      ApiLogIgnoresAppendedDetails(env, Apply(env, s, before[0]), before[1..], level, event, text);
    }
  }
}
