# Detox connection dispatcher, modelled in Dafny

This project models `DetoxConnection`, the per-connection object of the Detox test server. It owns one WebSocket. It frames outbound actions. It decodes and validates inbound actions and routes each one to the handler currently in its handler slot. Handlers are given a capability object (`log`, `appendLogDetails`, `registerSession`, `setHandler`, `sendAction`). The connection logs socket errors and, on close, asks the session manager to unregister its socket.

Layout:

- `wrappers.dfy`: `Option` and `Result`.
- `json.dfy` (module `Json`): parsed JSON values, reading `type` off a parsed value (a TypeError for `null`), and JavaScript truthiness.
- `errors.dfy` (module `Errors`): `DetoxRuntimeError` versus any other thrown value, the two protocol-violation messages, and the text the outer `catch` logs.
- `codec.dfy` (module `Codec`): the injected foreign functions (`Env`), the `"\n "` framing, UTF-8 decoding of buffers, and validation of a decoded payload (`Classify`).
- `dispatch.dfy` (module `Dispatch`): the connection's state as a value, and one function per event and per capability call (`Send`, `Apply`, `RunEffects`, `Receive`, `SocketError`, `Close`, `Run`).
- `connection.dfy` (module `DetoxConnection`): class `Connection`. Its fields are updated in place, and each of its methods is proved against the function in `Dispatch` that specifies it.
- `script_properties.dfy`, `dispatch_properties.dfy`, `lifecycle_properties.dfy`: the lemmas.

How the parts outside this file are represented:

- JSON parsing, JSON serialisation, UTF-8 decoding, `DetoxRuntimeError.format` and the `DetoxRuntimeError` constructor's composition of its `message` are foreign code. They are the fields of `Env`, given to the constructor. `runtimeMessage` gives the `message` a DetoxRuntimeError ends up with, from the message option and the debug info; the dispatcher's hint is the same for both of its errors, so it is folded into that function. `parse` returns `None` where `JSON.parse` throws, as `_.attempt` reports it.
- A handler is an identity (`Anonymous` or `Supplied(id)`). What handlers do while one message is processed is given with the event, as a `Handlers` record. For each handler and arguments, it gives a `Reaction`: the capability calls the handler method makes, in order, and whether it then returns or throws.
- The socket, the logger and the session manager are records. `sent` holds the payloads written. `logs` holds the logger calls as (logger context, level, event, text). `sessionManager` holds the calls made on the session manager. `calls` holds the calls made on handlers.

Two places where the code does something other than what one might expect. The model follows the code in both:

- When `handle` throws, `onError` goes to the handler in the slot after `handle` ran (line 78 reads `this._handler` again). It does not go to the handler that was called. If `handle` called `setHandler` before throwing, the replacement receives `onError` (`DispatchProperties.ReceiveHandlerThrew`).
- The payload `null` parses. Reading `type` off it then throws a TypeError and not the "without a type" DetoxRuntimeError. The warning therefore carries the TypeError's string (`Json.NULL_TYPE_READ`) and not "Cannot process an action without a type." Every other non-object value, and every object whose `type` is missing or falsy, gets the "without a type" warning.

## Model

| member | source | states |
|---|---|---|
| Codec.Classify | detox/src/server/DetoxConnection.js:57-73 | A decoded payload is accepted exactly when it parses to an object whose `type` is truthy, and the accepted action is the parsed value. A parse failure gives a DetoxRuntimeError built from "The payload received is not a valid JSON." and the raw text, whose `message` is what the constructor makes of them. `null` gives the TypeError of reading `type` off `null`. Any other value gives a DetoxRuntimeError built from "Cannot process an action without a type." and the value. |
| Codec.UnframeFrame | detox/src/server/DetoxConnection.js:49 | Stripping the `"\n "` terminator from a framed text gives the text back. |
| Codec.FrameUnframe | detox/src/server/DetoxConnection.js:49 | Any terminated payload is the frame of what unframing it gives, so framing is injective and unframing is its exact inverse. |
| DetoxConnection.Connection.constructor | detox/src/server/DetoxConnection.js:21-43 | A new connection holds the anonymous handler. Its logger and the logger captured for `api.log` are both the child logger with `trackingId` = remote port. Nothing has been sent, logged or called yet. |
| DetoxConnection.Connection.SendAction | detox/src/server/DetoxConnection.js:46-50 | Exactly one payload is written: `stringify(action) + "\n "`. Exactly one SEND_TO trace with the unterminated text is logged on the current logger. Nothing else changes. |
| DetoxConnection.Connection.SetHandler | detox/src/server/DetoxConnection.js:40 | The slot holds the given handler and nothing else changes. |
| DetoxConnection.Connection.AppendLogDetails | detox/src/server/DetoxConnection.js:37 | The connection's logger becomes a child of itself with the details appended, and nothing else changes. |
| DetoxConnection.Connection.RegisterSession | detox/src/server/DetoxConnection.js:39 | One `registerSession` call, naming this connection (by its socket) and the handler's parameters, is made on the session manager, and nothing else changes. |
| DetoxConnection.Connection.LogViaApi | detox/src/server/DetoxConnection.js:33-36 | A handler's log call through `api.log` is written on the logger captured at construction, not on the current one. |
| DetoxConnection.Connection.Perform | detox/src/server/DetoxConnection.js:35-41 | A handler's capability calls, made in order, leave the connection in the state `RunEffects` specifies. |
| DetoxConnection.Connection.CallHandler | detox/src/server/DetoxConnection.js:75-79 | Calling a handler method records the call, runs the handler's capability calls, and reports whether the method returned or threw. |
| DetoxConnection.Connection.LogWarning | detox/src/server/DetoxConnection.js:80-81 | The outer `catch` logs one ERROR warning on the current logger: the message of a DetoxRuntimeError, the string form of anything else that has one. |
| DetoxConnection.Connection.OnMessage | detox/src/server/DetoxConnection.js:52-83 | Processing an inbound message in place leaves exactly the state `Dispatch.Receive` specifies, and no exception that has a string form escapes. |
| DetoxConnection.Connection.OnError | detox/src/server/DetoxConnection.js:85-87 | A socket error adds one SOCKET_ERROR warning with the formatted error, and nothing else changes. |
| DetoxConnection.Connection.OnClose | detox/src/server/DetoxConnection.js:89-91 | A close makes one `unregisterConnection` call with this connection's socket, and nothing else changes. |
| ScriptProperties.RunEffectsSlot | detox/src/server/DetoxConnection.js:40 | After a handler's capability calls, the slot holds the handler named by the last `setHandler` call, or the previous handler if there was none. |
| ScriptProperties.LastHandlerIsSet | detox/src/server/DetoxConnection.js:40 | The slot holds either what it held before or a handler that some `setHandler` call named. |
| ScriptProperties.RunEffectsFrames | detox/src/server/DetoxConnection.js:41 | A handler's capability calls write exactly the frames of their `sendAction` calls to the socket, in order, and remove nothing. |
| ScriptProperties.RunEffectsLogging | detox/src/server/DetoxConnection.js:33-41 | A handler's capability calls add exactly their log entries and their appended details, in order, and remove nothing: `sendAction` traces on the current logger, `api.log` on the captured one. |
| ScriptProperties.RunEffectsRegistrations | detox/src/server/DetoxConnection.js:39 | A handler's capability calls add exactly their `registerSession` calls, each naming this connection, to the session manager. They call no handler, and they keep the socket and the captured logger. |
| ScriptProperties.RegistrationsNeverUnregister | detox/src/server/DetoxConnection.js:39 | No capability call unregisters the connection. |
| ScriptProperties.ApiLogIgnoresAppendedDetails | detox/src/server/DetoxConnection.js:33-37 | Whatever capability calls a handler made before, however many details it appended, its next `api.log` call adds one entry on the logger captured at construction and changes nothing else. |
| DispatchProperties.ReceiveRejected | detox/src/server/DetoxConnection.js:57-82 | A payload that does not parse, parses to `null`, or lacks a truthy `type` reaches no handler and leaves the slot, the socket and the session manager unchanged. It adds exactly a GET_FROM trace and then one ERROR warning. The warning is the TypeError text for `null`, and otherwise the `message` of the DetoxRuntimeError built from the reason and the raw text or the parsed value. |
| DispatchProperties.ReceiveHandled | detox/src/server/DetoxConnection.js:75-76 | For a typed action whose `handle` returns, `handle` is called exactly once, on the handler in the slot at entry, and `onError` is not called. Everything else changes only through the handler's capability calls. |
| DispatchProperties.ReceiveHandlerThrew | detox/src/server/DetoxConnection.js:75-79 | When `handle` throws `e`, `onError(e, action)` is called exactly once, with the same error and action. It is called on the handler in the slot after `handle` ran. That is the replacement when `handle` called `setHandler`. |
| DispatchProperties.ReceiveHandlerThrewLogs | detox/src/server/DetoxConnection.js:77-82 | When `handle` throws, the log gains the GET_FROM trace and the entries of both handler methods. Only when `onError` throws too does it gain one ERROR warning carrying that error's text. |
| DispatchProperties.ReceiveTracesFirst | detox/src/server/DetoxConnection.js:52-54 | Every inbound message first adds one GET_FROM trace with the decoded text on the logger current at entry. Buffers are decoded as UTF-8. |
| DispatchProperties.ReceiveHandlerCalledFirst | detox/src/server/DetoxConnection.js:75-76 | A typed action is handed first to `handle` of the handler in the slot at entry. |
| DispatchProperties.ReceiveActsThroughCapabilities | detox/src/server/DetoxConnection.js:34-43 | Outside the log and the handler-call record, a message changes the connection only through the handlers' capability calls. The slot changes only through `setHandler`. The logger only grows. The session manager sees only registrations, never an unregistration. |
| DispatchProperties.NextActionGoesToReplacement | detox/src/server/DetoxConnection.js:75-76 | After `handle` replaces the handler (line 40) and returns, the next typed action goes to the replacement and not to the handler it replaced. |
| DispatchProperties.SentFrameParses | detox/src/server/DetoxConnection.js:46-49 | With the terminator stripped, the payload sent for an action parses back to the action, provided the JSON library round-trips that action. |
| DispatchProperties.EchoedActionIsHandled | detox/src/server/DetoxConnection.js:46-57 | A typed action sent by one connection and received, unframed, by another reaches `handle` on the receiver's current handler. |
| DispatchProperties.InvalidThenHello | detox/src/server/DetoxConnection.js:57-76 | `not-json` is logged with the `message` of the invalid-JSON DetoxRuntimeError built from it, reaches no handler, and leaves the connection usable. A following `{"type":"HELLO"}` reaches `handle` on the same handler. |
| LifecycleProperties.SocketErrorOnlyLogs | detox/src/server/DetoxConnection.js:85-87 | A socket error adds one warning with the formatted error and changes nothing else. |
| LifecycleProperties.CloseUnregistersOnce | detox/src/server/DetoxConnection.js:89-91 | A close adds exactly one `unregisterConnection` call, with this connection's socket, and changes nothing else. |
| LifecycleProperties.UnregisterOncePerClose | detox/src/server/DetoxConnection.js:89-91 | Over any sequence of events (messages, sends, socket errors, closes), `unregisterConnection` is called exactly once per close event, however many messages and sends came before. Every session-manager call, registration or unregistration, names the connection's own socket. |
| LifecycleProperties.RunOnlyGrows | detox/src/server/DetoxConnection.js:26-37 | Over any sequence of events, including `sendAction` calls made between them, the socket and the captured logger stay fixed. The connection's logger, its log and its handler-call record only grow. |
| LifecycleProperties.ReceiveKeepsCalls | detox/src/server/DetoxConnection.js:75-79 | A message never drops an earlier handler call from the record. |
| LifecycleProperties.ApiLogIsConstructionLogger | detox/src/server/DetoxConnection.js:26-36 | From construction on, `api.log` is the tracking logger of the remote port, whatever happened since. |

## Left out

- The `ws` socket object and the `.on(...)` registrations. Each event is a direct method call (`OnMessage`, `OnError`, `OnClose`), and writing to the socket appends to `sent`.
- The internals of `JSON.parse`, `JSON.stringify`, `Buffer#toString('utf8')`, lodash and `DetoxRuntimeError.format`. They are foreign code, so they are opaque functions in `Env`. `JSON.stringify` throwing (on a cycle or a BigInt) is not modelled: `Send` always succeeds. Nor is `JSON.stringify` returning `undefined` (for an `undefined` or function action), on which line 49 sends `"undefined\n "`: actions are JSON values and `stringify` always gives a string.
- How the `DetoxRuntimeError` constructor joins its message, the `DetoxInvariantError.reportIssue` hint and the debug info into `message`. The files that define them are not part of this model, so that composition is the opaque `Env.runtimeMessage`.
- Raw data delivered as an `ArrayBuffer` or as an array of buffer fragments. Only strings and single buffers are modelled.
- The logger's internals, and the `{ __filename }` context of the module logger. A logger is modelled as the chain of details its `child` calls added, starting from `{ trackingId: remotePort }`.
- `Json.NULL_TYPE_READ` is the text current V8 versions give. Older engines word the TypeError differently.
- The value `registerSession` returns. The session manager's bookkeeping is external. A handler's reaction to a message is given in advance, so it cannot depend on that value.
- The behaviour of the concrete handlers (the anonymous handler and the session handlers). Their behaviour is a parameter of each message event.
- Capability calls a handler makes asynchronously, after its `handle` or `onError` call has returned. Later `sendAction` calls are modelled, as `SendEvent`s. Later `setHandler`, `appendLogDetails`, `registerSession` and `api.log` calls have no `Event`. So `RunOnlyGrows`, `UnregisterOncePerClose` and `ApiLogIsConstructionLogger` say nothing about event sequences that contain them.
- An exception thrown by a capability call itself (for example by `webSocket.send`).
- DetoxConnection.Connection.LogWarning, DetoxConnection.Connection.OnMessage: a thrown value whose `${error}` conversion itself throws (a Symbol, or an object without a prototype such as `Object.create(null)`) is not modelled. In the source, line 81 runs inside the `catch` and outside any `try`, so such a value logs nothing and a TypeError escapes `_onMessage`. Every thrown value here has a string form. Exceptions raised by lines 53-54 (decoding and the GET trace), which also run outside the `try`, are not modelled either.
