/** The connection object: its fields are updated in place by the event
    callbacks and by the capability object handed to handlers. Every method
    is proved against the functions of module Dispatch. */
module DetoxConnection {
  import opened Wrappers
  import opened Json
  import opened Errors
  import opened Codec
  import opened Dispatch

  class Connection {
    const env: Env
    const webSocket: SocketId
    /** The logger the capability object's `log` getter returns: captured once. */
    const apiLog: Context
    var log: Context
    var handler: Handler
    /** Payloads written to the socket. */
    var sent: seq<string>
    var logs: seq<LogEntry>
    var sessionManager: seq<SessionManagerCall>
    var calls: seq<HandlerCall>

    function Snapshot(): State
      reads this
    {
      State(webSocket, apiLog, log, handler, sent, logs, sessionManager, calls)
    }

    constructor (env: Env, webSocket: SocketId, remotePort: nat)
      ensures this.env == env
      ensures Snapshot() == Initial(webSocket, remotePort)
    {
      this.env := env;
      this.webSocket := webSocket;
      var tracking := TrackingContext(remotePort);
      log := tracking;
      apiLog := tracking;
      handler := Anonymous;
      sent, logs, sessionManager, calls := [], [], [], [];
    }

    method SendAction(action: Value)
      modifies this
      ensures sent == old(sent) + [Frame(env.stringify(action))]
      ensures logs == old(logs) + [LogEntry(log, Trace, SEND_TO, env.stringify(action))]
      ensures log == old(log) && handler == old(handler)
      ensures sessionManager == old(sessionManager) && calls == old(calls)
    {
      var messageAsString := env.stringify(action);
      logs := logs + [LogEntry(log, Trace, SEND_TO, messageAsString)];
      sent := sent + [Frame(messageAsString)];
    }

    /** The capability `setHandler`: the only assignment to the slot after construction. */
    method SetHandler(next: Handler)
      modifies this
      ensures Snapshot() == old(Snapshot()).(handler := next)
    {
      handler := next;
    }

    /** The capability `appendLogDetails`: the logger becomes a child of itself. */
    method AppendLogDetails(details: Details)
      modifies this
      ensures Snapshot() == old(Snapshot()).(log := old(log) + [details])
    {
      log := log + [details];
    }

    /** The capability `registerSession`, passing this connection to the session manager. */
    method RegisterSession(params: Value)
      modifies this
      ensures Snapshot() == old(Snapshot()).(sessionManager := old(sessionManager) + [RegisterSessionCalled(webSocket, params)])
    {
      sessionManager := sessionManager + [RegisterSessionCalled(webSocket, params)];
    }

    /** A call on the logger the capability object's `log` getter returns. */
    method LogViaApi(level: Level, event: string, text: string)
      modifies this
      ensures Snapshot() == old(Snapshot()).(logs := old(logs) + [LogEntry(apiLog, level, event, text)])
    {
      logs := logs + [LogEntry(apiLog, level, event, text)];
    }

    /** The handler's own code running: the capability calls it makes, in order. */
    method Perform(effects: seq<Effect>)
      modifies this
      ensures Snapshot() == RunEffects(env, old(Snapshot()), effects)
      decreases |effects|
    {
      if effects != [] {
        match effects[0] {
          case CallSetHandler(next) => SetHandler(next);
          case CallSendAction(action) => SendAction(action);
          case CallAppendLogDetails(details) => AppendLogDetails(details);
          case CallRegisterSession(params) => RegisterSession(params);
          case CallLog(level, event, text) => LogViaApi(level, event, text);
        }
        Perform(effects[1..]);
      }
    }

    /** A call of a handler method that reacts as `reaction` says. */
    method CallHandler(call: HandlerCall, reaction: Reaction) returns (outcome: Outcome)
      modifies this
      ensures outcome == reaction.outcome
      ensures Snapshot() == RunHandler(env, old(Snapshot()), call, reaction)
    {
      calls := calls + [call];
      Perform(reaction.effects);
      outcome := reaction.outcome;
    }

    method LogWarning(e: Exception)
      modifies this
      ensures Snapshot() == Warned(old(Snapshot()), e)
    {
      logs := logs + [LogEntry(log, Warn, ERROR, WarnText(e))];
    }

    /** `_onMessage`: no exception that has a string form leaves it. */
    method OnMessage(raw: RawData, handlers: Handlers)
      modifies this
      ensures Snapshot() == Receive(env, old(Snapshot()), raw, handlers)
    {
      var data := DecodeText(env, raw);
      logs := logs + [LogEntry(log, Trace, GET_FROM, data)];
      match Classify(env, env.parse(data), data) {
        case Failure(e) =>
          LogWarning(e);
        case Success(action) =>
          var current := handler;
          var outcome := CallHandler(HandleCalled(current, action), handlers.handle(current, action));
          if outcome.Threw? {
            var replacement := handler;   // the slot is read again
            var e := outcome.error;
            var second := CallHandler(OnErrorCalled(replacement, e, action), handlers.onError(replacement, e, action));
            if second.Threw? {
              LogWarning(second.error);
            }
          }
      }
    }

    /** `_onError`: a socket error is logged and nothing else happens. */
    method OnError(e: Exception)
      modifies this
      ensures Snapshot() == SocketError(env, old(Snapshot()), e)
    {
      logs := logs + [LogEntry(log, Warn, SOCKET_ERROR, env.format(e))];
    }

    /** `_onClose`. */
    method OnClose()
      modifies this
      ensures Snapshot() == Close(old(Snapshot()))
    {
      sessionManager := sessionManager + [UnregisterConnectionCalled(webSocket)];
    }
  }
}
