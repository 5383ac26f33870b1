/** The per-connection dispatcher as a function of its state: what each
    event (an inbound message, a socket error, a close) and each capability
    call a handler makes does to the connection. The class in module
    DetoxConnection is proved against these functions. */
module Dispatch {
  import opened Wrappers
  import opened Json
  import opened Errors
  import opened Codec

  /** Identity of the underlying WebSocket object. */
  type SocketId = nat

  /** The details a `logger.child(details)` call adds. */
  type Details = map<string, Value>

  /** A logger, as the chain of details its `child` calls added. */
  type Context = seq<Details>

  datatype Level = Trace | Debug | Info | Warn | Error | Fatal

  /** One call of a logger method: the logger's context, the level, the
      event tag and the text. */
  datatype LogEntry = LogEntry(context: Context, level: Level, event: string, text: string)

  const GET_FROM: string := "GET_FROM"
  const SEND_TO: string := "SEND_TO"
  const ERROR: string := "ERROR"
  const SOCKET_ERROR: string := "SOCKET_ERROR"

  /** The handler in the slot: the anonymous handler installed at
      construction, or one supplied later through `setHandler`. */
  datatype Handler = Anonymous | Supplied(id: nat)

  /** A call the dispatcher makes on a handler. */
  datatype HandlerCall =
    | HandleCalled(handler: Handler, action: Value)
    | OnErrorCalled(handler: Handler, error: Exception, action: Value)

  /** A call made on the shared session manager. `registerSession` passes the
      connection itself, identified here by its socket. */
  datatype SessionManagerCall =
    | RegisterSessionCalled(connection: SocketId, params: Value)
    | UnregisterConnectionCalled(webSocket: SocketId)

  /** A call a handler makes on the capability object it was given. */
  datatype Effect =
    | CallSetHandler(next: Handler)
    | CallSendAction(action: Value)
    | CallAppendLogDetails(details: Details)
    | CallRegisterSession(params: Value)
    | CallLog(level: Level, event: string, text: string)    // through the `api.log` getter

  /** How a handler method ends. */
  datatype Outcome = Returned | Threw(error: Exception)

  /** What a handler method does when called: its capability calls in order, then its outcome. */
  datatype Reaction = Reaction(effects: seq<Effect>, outcome: Outcome)

  /** The handlers' behaviour while one message is processed. */
  datatype Handlers = Handlers(
    handle: (Handler, Value) -> Reaction,
    onError: (Handler, Exception, Value) -> Reaction)

  /** Everything a connection owns or has done: its socket, the logger the
      capability object's `log` getter captured, the current logger, the
      handler slot, the frames written to the socket, the log entries, and
      the calls made on the session manager and on handlers. */
  datatype State = State(
    webSocket: SocketId,
    apiLog: Context,
    log: Context,
    handler: Handler,
    sent: seq<string>,
    logs: seq<LogEntry>,
    sessionManager: seq<SessionManagerCall>,
    calls: seq<HandlerCall>)

  /** The logger `logger.child({ trackingId: socket.remotePort })`. */
  function TrackingContext(remotePort: nat): Context {
    [map["trackingId" := Num(remotePort as real)]]
  }

  /** A fresh connection: both loggers are the tracking logger and the slot
      holds the anonymous handler. */
  function Initial(webSocket: SocketId, remotePort: nat): State {
    State(webSocket, TrackingContext(remotePort), TrackingContext(remotePort), Anonymous, [], [], [], [])
  }

  /** `sendAction`: trace the serialised action, then write it framed. */
  function Send(env: Env, s: State, action: Value): State {
    var text := env.stringify(action);
    s.(logs := s.logs + [LogEntry(s.log, Trace, SEND_TO, text)], sent := s.sent + [Frame(text)])
  }

  /** One capability call. */
  function Apply(env: Env, s: State, e: Effect): State {
    match e
    case CallSetHandler(next) => s.(handler := next)
    case CallSendAction(action) => Send(env, s, action)
    case CallAppendLogDetails(details) => s.(log := s.log + [details])
    case CallRegisterSession(params) => s.(sessionManager := s.sessionManager + [RegisterSessionCalled(s.webSocket, params)])
    case CallLog(level, event, text) => s.(logs := s.logs + [LogEntry(s.apiLog, level, event, text)])
  }

  /** A handler's capability calls, in order. */
  function RunEffects(env: Env, s: State, effects: seq<Effect>): State
    decreases |effects|
  {
    if effects == [] then s else RunEffects(env, Apply(env, s, effects[0]), effects[1..])
  }

  /** Calling a handler method: the call is recorded, then the handler's code runs. */
  function RunHandler(env: Env, s: State, call: HandlerCall, reaction: Reaction): State {
    RunEffects(env, s.(calls := s.calls + [call]), reaction.effects)
  }

  /** The outer `catch` of `_onMessage`: one warning on the current logger. */
  function Warned(s: State, e: Exception): State {
    s.(logs := s.logs + [LogEntry(s.log, Warn, ERROR, WarnText(e))])
  }

  /** `_onMessage`. The handler that receives `onError` is read from the slot
      after `handle` has run, so it is the replacement when `handle` called
      `setHandler`. */
  function Receive(env: Env, s: State, raw: RawData, handlers: Handlers): State {
    var data := DecodeText(env, raw);
    var traced := s.(logs := s.logs + [LogEntry(s.log, Trace, GET_FROM, data)]);
    match Classify(env, env.parse(data), data)
    case Failure(e) => Warned(traced, e)
    case Success(action) =>
      var first := handlers.handle(traced.handler, action);
      var handled := RunHandler(env, traced, HandleCalled(traced.handler, action), first);
      match first.outcome
      case Returned => handled
      case Threw(e) =>
        var second := handlers.onError(handled.handler, e, action);
        var recovered := RunHandler(env, handled, OnErrorCalled(handled.handler, e, action), second);
        match second.outcome
        case Returned => recovered
        case Threw(e2) => Warned(recovered, e2)
  }

  /** `_onError`: a socket error is only logged. */
  function SocketError(env: Env, s: State, e: Exception): State {
    s.(logs := s.logs + [LogEntry(s.log, Warn, SOCKET_ERROR, env.format(e))])
  }

  /** `_onClose`: the session manager forgets this connection's socket. */
  function Close(s: State): State {
    s.(sessionManager := s.sessionManager + [UnregisterConnectionCalled(s.webSocket)])
  }

  /** The events the socket delivers, one at a time. */
  datatype Event =
    | MessageEvent(raw: RawData, handlers: Handlers)
    | ErrorEvent(error: Exception)
    | CloseEvent
    | SendEvent(action: Value)    // a `sendAction` call made outside any event, by a handler's later work

  function Step(env: Env, s: State, ev: Event): State {
    match ev
    case MessageEvent(raw, handlers) => Receive(env, s, raw, handlers)
    case SendEvent(action) => Send(env, s, action)
    case ErrorEvent(e) => SocketError(env, s, e)
    case CloseEvent => Close(s)
  }

  /** A connection's events, in arrival order. */
  function Run(env: Env, s: State, events: seq<Event>): State
    decreases |events|
  {
    if events == [] then s else Run(env, Step(env, s, events[0]), events[1..])
  }
}
