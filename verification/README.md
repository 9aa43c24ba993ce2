# next-live-chat: a Dafny model of the chat channel

The application is a Next.js chat widget. It talks to a bot over one
socket.io connection:

- The browser keeps a single module-level connection (`src/lib/socket.ts`):
  `initSocket`, `disconnectSocket` and `sendMessage`.
- An API route (`src/pages/api/socket.ts`) attaches a socket.io server to the
  HTTP server at most once. It answers every `send-message` with one bot
  `receive-message` on the same connection, after a one-second timer.
- The widget component (`src/components/ChatWidget.tsx`) holds the message
  list and the text field. Its open effect seeds a welcome message and
  registers a `receive-message` listener, which the effect's cleanup removes.
  `handleSend` refuses blank input.

The model is in four modules:

- `Messages` (messages.dfy): the `Message` record, `Option`, and the decimal
  text of a clock reading, used as a message id.
- `SocketClient` (socket_client.dfy): the client state as a value. It holds
  `socket`, the count of connections ever opened, and a log of
  open/emit/close events. One step function per exported operation, with
  the invariant "exactly the held connection is live". Class `Client` has
  methods proved to take those steps.
- `SocketServer` (socket_server.dfy): the route's guard as a step function,
  with its invariant and the all-requests lemma. It also holds the pure bot
  `Reply`, class `HttpServer`, and class `Connection`. A `Connection` keeps
  a FIFO queue of replies waiting on their timers.
- `Widget` (chat_widget.dfy): `trim` as a function and the blank check. The
  widget state is a value with one step function per handler. Lemmas cover
  each property and the "listeners never stack" invariant over any event
  sequence. Class `ChatWidget` has methods proved to take those steps.

Connections and servers are opaque handles: the n-th one created is handle n.
Clock readings (`Date.now()`, `new Date()`) are a `now: nat` parameter in
milliseconds.

## Model

| member | source | states |
|---|---|---|
| `Messages.DecimalString` | src/pages/api/socket.ts:37 | `Date.now().toString()` is a non-empty string of decimal digits with no leading zero |
| `Messages.DecimalRoundTrip` | src/components/ChatWidget.tsx:63 | parsing the id made from a clock reading gives back that reading |
| `Messages.DecimalStringInjective` | src/components/ChatWidget.tsx:63 | two clock readings give the same id only if they are equal |
| `SocketClient.InitialWellFormed` | src/lib/socket.ts:4 | the page starts with `socket` null, no connection live and nothing logged, which satisfies the invariant |
| `SocketClient.InitStep` | src/lib/socket.ts:6-13 | after `initSocket`, `socket` holds the returned handle. A held handle is returned with nothing changed. With none held, exactly one connection is opened, on a handle never used before |
| `SocketClient.DisconnectStep` | src/lib/socket.ts:15-20 | afterwards `socket` is null. With nothing held nothing changes. Otherwise the held handle is closed exactly once |
| `SocketClient.SendStep` | src/lib/socket.ts:22-26 | `socket` is left as it is. With no handle nothing is emitted. Otherwise exactly one `send-message` carrying the message unchanged goes out on the held handle |
| `SocketClient.InitPreserves` | src/lib/socket.ts:6-13 | `initSocket` keeps the invariant: the live connections are exactly the held one (at most one per page) |
| `SocketClient.DisconnectPreserves` | src/lib/socket.ts:15-20 | `disconnectSocket` keeps the invariant; afterwards no connection is live |
| `SocketClient.SendPreserves` | src/lib/socket.ts:22-26 | `sendMessage` keeps the invariant |
| `SocketClient.InitRepeatedWhenHeld` | src/lib/socket.ts:7 | while a handle is held, any number of `initSocket` calls change nothing and all return that handle |
| `SocketClient.InitIdempotent` | src/lib/socket.ts:6-13 | any number (at least one) of consecutive `initSocket` calls leaves the state that one call leaves. At most one connection is opened, and every call returns the same handle |
| `SocketClient.ReconnectIsFresh` | src/lib/socket.ts:7-18 | after `disconnectSocket`, the next `initSocket` opens a new handle. It differs from the closed one and appears nowhere in the earlier log, so nothing from the earlier connection is replayed |
| `SocketClient.Client.constructor` | src/lib/socket.ts:4 | the module as loaded: `socket` is null and the invariant holds |
| `SocketClient.Client.InitSocket` | src/lib/socket.ts:6-13 | the mutable module takes exactly the `InitStep` transition and returns its handle; the invariant is kept |
| `SocketClient.Client.DisconnectSocket` | src/lib/socket.ts:15-20 | takes exactly the `DisconnectStep` transition; the invariant is kept |
| `SocketClient.Client.SendMessage` | src/lib/socket.ts:22-26 | takes exactly the `SendStep` transition; the invariant is kept |
| `SocketServer.HandlerStep` | src/pages/api/socket.ts:19-56 | afterwards `io` is set. If it was already set, nothing is created or registered (early return). Otherwise exactly one server is created and stored in `io`, and exactly one `connection` listener is registered. The single-server invariant is kept |
| `SocketServer.RequestsWhenRunning` | src/pages/api/socket.ts:20-24 | once `io` is set, every later request takes the early return and changes nothing |
| `SocketServer.RepeatedBootstrap` | src/pages/api/socket.ts:20-29 | after any number (at least one) of requests from the unattached server, exactly one server exists, stored in `io`, with one `connection` listener. The first request took the start path and every later one the early return |
| `SocketServer.Reply` | src/pages/api/socket.ts:36-41 | the bot message has sender `bot`, the clock reading as timestamp and its decimal text as id. The content is as long as the inbound content plus the template |
| `SocketServer.ReplyQuotesContent` | src/pages/api/socket.ts:38 | the reply content is `Thanks for your message: "` + inbound content + `"`; stripping the template gives back the inbound content exactly |
| `SocketServer.ReplyIgnoresOtherFields` | src/pages/api/socket.ts:36-41 | the reply depends only on the inbound content and the clock; the inbound id, sender and timestamp are ignored |
| `SocketServer.ReplyContentInjective` | src/pages/api/socket.ts:38 | different inbound contents always give different reply contents |
| `SocketServer.Replies` | src/pages/api/socket.ts:32-46 | the replies owed for a sequence of inbound messages: one per message, the i-th being the reply to the i-th |
| `SocketServer.Response.constructor` | src/pages/api/socket.ts:19 | a response that has not been ended yet |
| `SocketServer.Response.End` | src/pages/api/socket.ts:55 | `res.end()` counts one more ending of the response |
| `SocketServer.HttpServer.constructor` | src/pages/api/socket.ts:7-9 | the HTTP server before the first request: no `io`, no server, no listener |
| `SocketServer.HttpServer.SocketHandler` | src/pages/api/socket.ts:19-56 | the shared HTTP server takes exactly the `HandlerStep` transition and keeps the single-server invariant. The response is ended exactly once on either path |
| `SocketServer.Connection.constructor` | src/pages/api/socket.ts:29-51 | a newly accepted connection has received nothing, emitted nothing and owes nothing |
| `SocketServer.Connection.OnSendMessage` | src/pages/api/socket.ts:32-46 | an inbound `send-message` queues exactly one reply, built from it, behind the earlier ones on this connection only. Emitted replies followed by queued ones are still the replies owed, in arrival order |
| `SocketServer.Connection.OnTimer` | src/pages/api/socket.ts:44-46 | the oldest pending reply is emitted as `receive-message` on this connection; the FIFO invariant is kept |
| `SocketServer.Connection.OnDisconnect` | src/pages/api/socket.ts:49-51 | the `disconnect` listener changes no state |
| `SocketServer.Connection.AllDelivered` | src/pages/api/socket.ts:32-46 | once every timer has fired, the connection has emitted exactly one reply per inbound message, in arrival order |
| `Widget.TrimStart` | src/components/ChatWidget.tsx:60 | the result is a suffix of the input. What was removed is all whitespace, and the result is empty or starts with non-whitespace |
| `Widget.TrimEnd` | src/components/ChatWidget.tsx:60 | the result is a prefix of the input. What was removed is all whitespace, and the result is empty or ends with non-whitespace |
| `Widget.BlankTrimsAway` | src/components/ChatWidget.tsx:60 | a whitespace-only string loses all of its characters to trimming |
| `Widget.TrimEmptyIffBlank` | src/components/ChatWidget.tsx:60 | `input.trim() === ''` holds if and only if every character of the input is JavaScript whitespace |
| `Widget.Trim` | src/components/ChatWidget.tsx:60 | `input.trim()` is no longer than the input and neither starts nor ends with whitespace |
| `Widget.TrimIsSlice` | src/components/ChatWidget.tsx:60 | `input.trim()` removes exactly the leading and the trailing whitespace. The result is the piece of the input that starts where the leading whitespace ends, and everything before and after that piece is whitespace |
| `Widget.SendEnabled` | src/components/ChatWidget.tsx:179 | the send button is enabled exactly when the input has a character that is not whitespace |
| `Widget.TriggersSend` | src/components/ChatWidget.tsx:75 | no key sends while Shift is held, and no key other than Enter sends |
| `Widget.SetOpenStep` | src/components/ChatWidget.tsx:28-52 | a change of `isOpen` sets `isOpen` and keeps the input; no change runs nothing. Opening replaces the list with exactly the welcome message and connects through `initSocket`, with `socket.current` set to the client's connection. Opening registers one listener after any cleanup. Closing keeps the list, the client and `socket.current`, and removes the listeners |
| `Widget.ReceiveStep` | src/components/ChatWidget.tsx:42-44 | a `receive-message` appends one copy of the message per registered listener, at the end, with earlier entries and all other state unchanged |
| `Widget.HandleSendStep` | src/components/ChatWidget.tsx:59-72 | `handleSend` either changes nothing or appends exactly one user message built from the input. In that case it sends that message through `sendMessage` and clears the input; the open state and the listener are untouched |
| `Widget.KeyPressStep` | src/components/ChatWidget.tsx:74-79 | a key other than Enter without Shift changes nothing; Enter without Shift gives exactly `handleSend`'s result |
| `Widget.InputChangeStep` | src/components/ChatWidget.tsx:171 | the text field's change sets the input to the new text and changes nothing else |
| `Widget.WelcomeMessage` | src/components/ChatWidget.tsx:33-38 | the greeting has id `welcome`, sender `bot`, the fixed greeting text, and the clock reading as timestamp |
| `Widget.UserMessage` | src/components/ChatWidget.tsx:62-67 | the outgoing message carries the input untrimmed, sender `user`, the clock reading as timestamp and its decimal text as id |
| `Widget.MountedConsistent` | src/components/ChatWidget.tsx:23-26 | the first render (closed, empty list, empty input, no socket, no listener) satisfies the widget invariant |
| `Widget.OpenSeedsWelcome` | src/components/ChatWidget.tsx:29-45 | opening replaces the list with exactly the welcome message. `socket.current` becomes the client module's one connection, and exactly one listener is registered |
| `Widget.CloseUnregisters` | src/components/ChatWidget.tsx:47-51 | closing runs the cleanup: no listener is left, and the list and the connection are kept |
| `Widget.ReceiveAppends` | src/components/ChatWidget.tsx:42-44 | while open, a received message is appended once at the end with earlier entries unchanged and in order. While closed, it is not delivered |
| `Widget.SendRejectsBlank` | src/components/ChatWidget.tsx:59-60 | with whitespace-only input, `handleSend` changes nothing: no message, no emit, input kept |
| `Widget.SendAppendsUserMessage` | src/components/ChatWidget.tsx:59-72 | with other input, `handleSend` appends exactly one `user` message carrying the untrimmed input at the end. It passes that same message to `sendMessage` once and clears the input |
| `Widget.ButtonMatchesGuard` | src/components/ChatWidget.tsx:179 | the send button is enabled if and only if `handleSend` would change the state, so the button and the guard agree |
| `Widget.OnlyPlainEnterSends` | src/components/ChatWidget.tsx:74-79 | Enter without Shift runs `handleSend`; Shift+Enter and every other key change nothing |
| `Widget.ApplyKeepsPrefix` | src/components/ChatWidget.tsx:42-79 | every handler other than opening or closing keeps the list as a prefix of the new list and leaves the open state and the listener alone |
| `Widget.RunKeepsPrefix` | src/components/ChatWidget.tsx:42-79 | any sequence of events that neither opens nor closes the widget keeps the earlier list as a prefix and leaves the open state and the listener alone |
| `Widget.ReceiveKeepsPrefix` | src/components/ChatWidget.tsx:42-44 | with one listener registered, a received message goes last and every earlier entry keeps its place |
| `Widget.SendThenReplyOrder` | src/components/ChatWidget.tsx:42-72 | while open, a sent message is appended. The client module emits exactly one `send-message` carrying it on the connection `socket.current` holds. Any events may come before the server's reply, as long as none opens or closes the widget. The user's message keeps its place, and the reply lands after it as the last entry and quotes the input. With nothing in between, the reply lands right after it |
| `Widget.ApplyPreserves` | src/components/ChatWidget.tsx:28-79 | every handler keeps the widget invariant: one listener while open, none while closed, `socket.current` equal to the client module's connection while open, and a well-formed client module |
| `Widget.ListenersNeverStack` | src/components/ChatWidget.tsx:28-52 | after any sequence of events, including any number of open/close cycles, at most one `receive-message` listener is registered |
| `Widget.ChatWidget.constructor` | src/components/ChatWidget.tsx:23-26 | the mounted component is closed, with an empty list, empty input, no socket and no listener |
| `Widget.ChatWidget.SetOpen` | src/components/ChatWidget.tsx:28-52 | a change of `isOpen` takes exactly the `SetOpenStep` transition (cleanup, then effect); the invariant is kept |
| `Widget.ChatWidget.Open` | src/components/ChatWidget.tsx:29-45 | the effect body: connects through `initSocket`, seeds exactly the welcome message and registers one listener |
| `Widget.ChatWidget.Close` | src/components/ChatWidget.tsx:47-51 | the cleanup when the widget closes: no listener is left, the widget is closed, and everything else is kept |
| `Widget.ChatWidget.Receive` | src/components/ChatWidget.tsx:42-44 | a `receive-message` appends the message once if the widget is open, and not at all otherwise |
| `Widget.ChatWidget.HandleSend` | src/components/ChatWidget.tsx:59-72 | takes exactly the `HandleSendStep` transition on the component and the client module |
| `Widget.ChatWidget.HandleKeyPress` | src/components/ChatWidget.tsx:74-79 | suppresses the default action exactly for Enter without Shift and then sends; otherwise changes nothing |
| `Widget.ChatWidget.OnInputChange` | src/components/ChatWidget.tsx:171 | the text field's change sets `input` and nothing else |

## Left out

- Rendering: JSX, MUI styling, `Zoom`, and the scroll-into-view effect (src/components/ChatWidget.tsx:54-57, 81-186). They only display the list.
- src/pages/index.tsx: the `fetch('/api/socket')` bootstrap is network I/O, and `toggleChat` only flips the `isOpen` passed to `SetOpen`. It is not part of this model.
- socket.io internals: the handshake and transport are foreign code. Connections and servers are opaque handles, and emits are log entries or sequences.
- The `setTimeout(..., 1000)` delay: the reply is built at once and queued, and `OnTimer` emits the oldest one. Equal delays fire in order, so the queue is FIFO. Real time is not modelled.
- `Date.now()` and `new Date()` are one `now` parameter in milliseconds, used for both the id and the timestamp of a message. Ids are not claimed unique, because the code does not make them unique.
- socket.io sends payloads as JSON, so a `Date` timestamp arrives on the other side as an ISO string. The model keeps it as a `nat` throughout. Only rendering reads a timestamp (src/components/ChatWidget.tsx:147), so nothing the model states depends on this.
- `console.log` calls and `process.env.NEXT_PUBLIC_SOCKET_URL`: logging and configuration.
- A reply emitted after its connection closed is dropped by the transport, not by the route. `OnTimer` still records it as emitted on that connection.
- The widget is mounted closed, as the page mounts it. Mounting it open gives the same state as mounting closed and then opening.
- The server's `disconnect` handler only logs: there is no registry of connections and pending replies are not cancelled. Empty content gets the ordinary templated reply. Payloads are not validated; `Message` always has a `content` field here.
- Widget.SendThenReplyOrder covers the events that do not open or close the widget. If the widget is closed before the reply arrives, no listener is registered and the reply is dropped (`Widget.ReceiveAppends`). If it is closed and reopened, the list is reset to the welcome message and the reply is appended after that (`Widget.OpenSeedsWelcome`).
- `handleSend`, `handleKeyPress` and the text field's change can only happen while the widget is open, because the field and the button are not rendered when it is closed. The model lets these handlers run in either state. Every property is proved for all event sequences, so this extra freedom loses nothing.
