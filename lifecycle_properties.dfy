/** The promises of the connection's lifecycle: construction, socket
    errors, close, and any sequence of events. */
module LifecycleProperties {
  import opened Json
  import opened Errors
  import opened Codec
  import opened Dispatch
  import opened ScriptProperties
  import opened DispatchProperties

  /** A socket error adds one warning with the formatted error and changes
      nothing else: not the slot, not the socket, not the session manager. */
  lemma SocketErrorOnlyLogs(env: Env, s: State, e: Exception)
    ensures var r := SocketError(env, s, e);
      && r.logs == s.logs + [LogEntry(s.log, Warn, SOCKET_ERROR, env.format(e))]
      && r.(logs := s.logs) == s
  {
  }

  /** A close calls `unregisterConnection` once, with this connection's
      socket, and changes nothing else. */
  lemma CloseUnregistersOnce(s: State)
    ensures var r := Close(s);
      && r.sessionManager == s.sessionManager + [UnregisterConnectionCalled(s.webSocket)]
      && Unregistrations(r.sessionManager) == Unregistrations(s.sessionManager) + 1
      && r.(sessionManager := s.sessionManager) == s
  {
    UnregistrationsAppend(s.sessionManager, [UnregisterConnectionCalled(s.webSocket)]);
  }

  /** The number of close events. */
  function Closes(events: seq<Event>): nat
    decreases |events|
  {
    if events == [] then 0 else (if events[0].CloseEvent? then 1 else 0) + Closes(events[1..])
  }

  /** The connection a session-manager call is about. */
  function Subject(c: SessionManagerCall): SocketId {
    match c
    case RegisterSessionCalled(connection, _) => connection
    case UnregisterConnectionCalled(webSocket) => webSocket
  }

  /** Over any run of events, the session manager is asked to unregister the
      connection exactly once per close event, however many messages and
      sends came before, and every call it receives, registration or
      unregistration, names the connection's own socket. */
  lemma {:induction false} UnregisterOncePerClose(env: Env, s: State, events: seq<Event>)
    requires forall c :: c in s.sessionManager ==> Subject(c) == s.webSocket
    ensures var r := Run(env, s, events);
      && Unregistrations(r.sessionManager) == Unregistrations(s.sessionManager) + Closes(events)
      && r.webSocket == s.webSocket
      && forall c :: c in r.sessionManager ==> Subject(c) == s.webSocket
    decreases |events|
  {
    if events != [] {
      var next := Step(env, s, events[0]);
      match events[0] {
        case MessageEvent(raw, handlers) =>
          ReceiveActsThroughCapabilities(env, s, raw, handlers);
          RegistrationsOnlyRegister(s.webSocket, HandlerScripts(env, s, raw, handlers));
        case SendEvent(action) =>
        case ErrorEvent(e) =>
          SocketErrorOnlyLogs(env, s, e);
        case CloseEvent =>
          CloseUnregistersOnce(s);
      }
      UnregisterOncePerClose(env, next, events[1..]);
    }
  }

  lemma {:induction false} RegistrationsOnlyRegister(connection: SocketId, effects: seq<Effect>)
    ensures forall c :: c in Registrations(connection, effects) ==> c.RegisterSessionCalled? && c.connection == connection
    decreases |effects|
  {
    if effects != [] {
      RegistrationsOnlyRegister(connection, effects[1..]);
    }
  }

  /** Over any run of events, the socket identity and the logger the
      capability object captured never change, and the connection's own
      logger, its log and its handler-call record only ever grow. */
  lemma {:induction false} RunOnlyGrows(env: Env, s: State, events: seq<Event>)
    ensures var r := Run(env, s, events);
      && r.webSocket == s.webSocket
      && r.apiLog == s.apiLog
      && s.log <= r.log
      && s.logs <= r.logs
      && s.calls <= r.calls
    decreases |events|
  {
    if events != [] {
      var next := Step(env, s, events[0]);
      match events[0] {
        case MessageEvent(raw, handlers) =>
          ReceiveActsThroughCapabilities(env, s, raw, handlers);
          ReceiveTracesFirst(env, s, raw, handlers);
          ReceiveKeepsCalls(env, s, raw, handlers);
          assert s.logs <= next.logs by {
            assert next.logs[..|s.logs| + 1][..|s.logs|] == s.logs;
          }
        case SendEvent(action) =>
        case ErrorEvent(e) =>
          SocketErrorOnlyLogs(env, s, e);
        case CloseEvent =>
          CloseUnregistersOnce(s);
      }
      RunOnlyGrows(env, next, events[1..]);
    }
  }

  /** A message never forgets an earlier handler call. */
  lemma ReceiveKeepsCalls(env: Env, s: State, raw: RawData, handlers: Handlers)
    ensures s.calls <= Receive(env, s, raw, handlers).calls
  {
    var parsed := env.parse(DecodeText(env, raw));
    if parsed.Some? && IsTypedAction(parsed.value) {
      ReceiveHandlerCalledFirst(env, s, raw, handlers, parsed.value);
      var r := Receive(env, s, raw, handlers);
      assert r.calls[..|s.calls| + 1][..|s.calls|] == s.calls;
    } else {
      ReceiveRejected(env, s, raw, handlers);
    }
  }

  /** From construction on, the capability object's `log` is the tracking
      logger of the socket's remote port, whatever happened since, and the
      connection's own logger still starts with it. */
  lemma {:induction false} ApiLogIsConstructionLogger(env: Env, webSocket: SocketId, remotePort: nat, events: seq<Event>)
    ensures var r := Run(env, Initial(webSocket, remotePort), events);
      && r.apiLog == TrackingContext(remotePort)
      && TrackingContext(remotePort) <= r.log
      && r.webSocket == webSocket
  {
    RunOnlyGrows(env, Initial(webSocket, remotePort), events);
  }
}
