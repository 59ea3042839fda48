# Chat relay: session object, edge router and widget connection, in Dafny

This project models the relay at the heart of the workers-chatbot repository:

- the edge worker's router (`chat-worker/src/index.ts`),
- the per-session object that accepts sockets and answers user messages (`chat-worker/src/durable-object.ts`),
- the widget's connection controller (`chat-widget/src/hooks/useWebSocket.ts`),
- the widget's chat store (`chat-widget/src/stores/chatStore.ts`).

It follows the code as written. The wire unit is `Messages.Envelope`: a `type`, an optional `messageId` and the `data` fields either side reads. A text frame after `JSON.parse` is `Messages.Frame`: it is either not JSON, the JSON value `null`, or an envelope.

- **`EdgeRouter`** (pure). `Route` maps a method and a path to a response. `OPTIONS` is answered first. `/socket/<id>` goes to the session named by the third `/`-separated piece, or gets 400 when that piece is empty. `/health`, `/embed.js` and `/embed-js.js` come next, and every other path gets 404.
- **`ChatSession`** (mixed).
  - `ChatSessionObject` keeps the `sessions` map. `Fetch` gates on the `Upgrade` header. `HandleWebSocket` adds one fresh socket. `OnClose` removes exactly that socket.
  - A `ServerSocket` records every envelope sent on it. `OnMessage` and `ProcessMessage` are the message listener.
  - `QueryAutoRAG` is the mock, a loop that turns the fixed answer text into word-plus-space chunks.
  - `StreamResponse` is the emitter loop. It is proved to send exactly `StreamFrames(stream)`: one cumulative frame per chunk, then one terminal frame.
  - `Reply` states everything one inbound frame produces, and the lemmas below it state what that means.
- **`ClientConnection`** (imperative). It holds the class `Connection`, with the socket state, the attempt counter, the pending retry timers (a map from timer id to delay), the store, and logs of created sockets and transmitted envelopes.
  - `Valid()` keeps every pending delay in the backoff schedule.
  - When no retry was ever scheduled while another was pending, `Valid()` also keeps `attempts + pending timers <= 5`.
  - `HandleFrame` is the pure specification of the `onmessage` handler.
- **`ChatStore`** (pure). Functions from state to state, one per store action.
- **`Integration`**. Lemmas that relate what the session object sends to what the widget does with it.

Some consequences of the code as written are proved here:

- The session object sends no `messageId` on any frame. The widget drops `assistant_message` frames without one, so the whole streamed answer leaves the widget's store unchanged (`Integration.ServerReplyInvisibleToClient`).
- Error frames carry `data.message`, but the widget reads `data.error`. The widget therefore shows "An error occurred" for them (`Integration.ServerErrorShowsDefaultText`).
- `connect()` calls `setConnecting(true)` and then `setError(undefined)`. The second call resets `isConnecting`, so after `connect` the store never says it is connecting (`ClientConnection.ConnectStore`).
- `updateMessage` never touches `status`. A sent user message therefore stays `sending` (`ClientConnection.Connection.Send`).
- `disconnect` clears only the most recently scheduled retry timer. A manual reconnect while a retry is pending leaves a timer that outlives `disconnect` (`ClientConnection.OverlappingRetryOutlivesDisconnect`). Even without one, a `disconnect` while the socket is still connecting closes it uncleanly. Its close handler is still attached, so it schedules a retry, and that retry opens a new socket after the disconnect (`ClientConnection.DisconnectWhileConnectingReconnects`).
- The acknowledgment text is not a prefix of the streamed content. The first streamed frame is `"I "` (`ChatSession.AckIsNotAPrefixOfTheStream`).

Some facts about the code that bound what the model contains:

- Server frames carry no message id.
- Nothing is persisted.
- The answer is the fixed mock text, built from the query and the scope filter.
- The scope filter ends in `/`.
- Error envelopes put their text in `data.message`.

## Model

| member | source | states |
|---|---|---|
| ChatStore.Initial | chat-widget/src/stores/chatStore.ts:17-23 | the store starts closed, disconnected, not connecting, with no messages, an empty draft and no error |
| ChatStore.ToggleChat | chat-widget/src/stores/chatStore.ts:26 | `isOpen` is negated and no other field changes |
| ChatStore.ToggleChatInvolution | chat-widget/src/stores/chatStore.ts:26 | toggling twice restores the state |
| ChatStore.SetConnecting | chat-widget/src/stores/chatStore.ts:28 | only `isConnecting` changes, to the given value |
| ChatStore.SetConnected | chat-widget/src/stores/chatStore.ts:30-34 | `isConnected` takes the value and `isConnecting` becomes false; the error is cleared on connect and kept on disconnect; messages, draft and open flag are unchanged |
| ChatStore.SetError | chat-widget/src/stores/chatStore.ts:36-40 | the error takes the value and both connection flags become false; messages, draft and open flag are unchanged |
| ChatStore.AddMessage | chat-widget/src/stores/chatStore.ts:42-44 | one message more, the old ones are an unchanged prefix, the new one is last, other fields unchanged |
| ChatStore.UpdateMessage | chat-widget/src/stores/chatStore.ts:46-50 | same length and order; every message with the id gets the new content and nothing else; all other messages and fields are untouched |
| ChatStore.UpdateMessageKeepsIdentity | chat-widget/src/stores/chatStore.ts:46-50 | an update never changes a message's id, role, status, timestamp, user or project |
| ChatStore.UpdateMessageAbsent | chat-widget/src/stores/chatStore.ts:46-50 | updating an id no message has leaves the state equal |
| ChatStore.UpdateMessageIdempotent | chat-widget/src/stores/chatStore.ts:46-50 | updating twice with the same id and content equals updating once |
| ChatStore.UpdateAfterAdd | chat-widget/src/stores/chatStore.ts:42-50 | adding a message with a new id and then updating it equals adding it with the new content |
| ChatStore.SetCurrentMessage | chat-widget/src/stores/chatStore.ts:52 | only the draft changes |
| ChatStore.ClearMessages | chat-widget/src/stores/chatStore.ts:54 | messages become empty and every other field is unchanged |
| ChatStore.ClearMessagesThenAdd | chat-widget/src/stores/chatStore.ts:54 | clearing is idempotent, and a message added after clearing is the only one |
| ChatSession.ServerSocket.Send | chat-worker/src/durable-object.ts:76-79 | the socket's log grows by exactly the sent envelope |
| ChatSession.MockResponse | chat-worker/src/durable-object.ts:102 | the mock text opens with a fixed phrase, then holds the query verbatim, then the scope filter |
| ChatSession.Reply | chat-worker/src/durable-object.ts:42-97 | one inbound frame gets no reply exactly when it is a parsed envelope of a type other than `user_message`; no envelope of any reply carries a `messageId` |
| ChatSession.UserIdFrom | chat-worker/src/durable-object.ts:35 | the user is the parameter when present and non-empty, otherwise "anonymous"; never empty |
| ChatSession.ProjectIdFrom | chat-worker/src/durable-object.ts:36 | a project is present exactly when the parameter is present and non-empty, and is then that parameter |
| ChatSession.ScopeFilter | chat-worker/src/durable-object.ts:83 | `user/project/` when the project is truthy, else `user/`; always starts with the user and ends in `/` |
| ChatSession.ScopeFilterPieces | chat-worker/src/durable-object.ts:83 | for slash-free ids the filter splits back into the user, the project if any, and a final empty piece |
| ChatSession.QueryAutoRAG | chat-worker/src/durable-object.ts:99-123 | the mock stream yields, in order, every `' '`-separated word of the mock text followed by a space, and never fails |
| ChatSession.MockChunksCover | chat-worker/src/durable-object.ts:102-119 | one chunk per word (spaces plus one), each chunk a word without spaces plus `' '`, and the chunks concatenate to the text plus one trailing space |
| ChatSession.StreamResponse | chat-worker/src/durable-object.ts:125-153 | the socket receives exactly the stream's cumulative frames and, unless the read rejects, then one complete frame; it reports completion exactly when the stream did not fail |
| ChatSession.StreamFramesShape | chat-worker/src/durable-object.ts:125-153 | n chunks give n non-terminal frames whose i-th content is chunks 1..i joined, then exactly one terminal frame with the full concatenation, and nothing after it |
| ChatSession.StreamFramesCumulative | chat-worker/src/durable-object.ts:127-148 | each frame's content is a prefix of every later frame's, so content lengths never decrease |
| ChatSession.MockStreamFrames | chat-worker/src/durable-object.ts:99-153 | the mock stream delivers one frame per word and ends with its single terminal frame holding the mock text plus a space |
| ChatSession.RunPipeline | chat-worker/src/durable-object.ts:81-95 | the socket receives the stream's frames, and one "Failed to generate response" error exactly when the stream fails |
| ChatSession.UserMessageReplyOrder | chat-worker/src/durable-object.ts:72-88 | a user message is answered first by the non-terminal "Processing your message..." acknowledgment, then the stream, whose last frame is the only terminal one; every frame is an `assistant_message` |
| ChatSession.AckIsNotAPrefixOfTheStream | chat-worker/src/durable-object.ts:76-87 | the first streamed frame after the acknowledgment holds "I ", shorter than the acknowledgment |
| ChatSession.ReplyErrorCases | chat-worker/src/durable-object.ts:42-53 | unparsable frames, `null` and user messages without `data` get one "Failed to process message" error; other types get nothing |
| ChatSession.ChatSessionObject.constructor | chat-worker/src/durable-object.ts:8-15 | a session object starts with no sockets |
| ChatSession.ChatSessionObject.Fetch | chat-worker/src/durable-object.ts:17-24 | an `Upgrade: websocket` request gets 101 and a fresh socket registered under itself; any other gets 400 "Expected WebSocket" and the map is unchanged |
| ChatSession.ChatSessionObject.HandleWebSocket | chat-worker/src/durable-object.ts:26-64 | exactly one entry is added, keyed by the new socket, with the defaulted user and project the listeners capture |
| ChatSession.ChatSessionObject.OnClose | chat-worker/src/durable-object.ts:56-58 | exactly the closed socket's entry is removed and every other entry is unchanged |
| ChatSession.ChatSessionObject.OnMessage | chat-worker/src/durable-object.ts:42-53 | the socket receives exactly `Reply` of the frame for the socket's captured user and project; the listener stays installed |
| ChatSession.ChatSessionObject.ProcessMessage | chat-worker/src/durable-object.ts:66-97 | only `user_message` sends anything; one without `data` throws before sending; otherwise acknowledgment then stream |
| ClientConnection.Backoff | chat-widget/src/hooks/useWebSocket.ts:68 | the delay is `min(1000 * 2^n, 10000)`: at most 10000 and at most `1000 * 2^n`, and equal to one of them |
| ClientConnection.BackoffSchedule | chat-widget/src/hooks/useWebSocket.ts:68 | attempts 0..4 wait 1000, 2000, 4000, 8000 and 10000 ms |
| ClientConnection.BackoffMonotone | chat-widget/src/hooks/useWebSocket.ts:68 | more attempts never wait less, and from attempt 4 on the wait is 10000 |
| ClientConnection.GenerateMessageId | chat-widget/src/hooks/useWebSocket.ts:26 | every id starts with `msg_`, followed by the stamp |
| ClientConnection.ConnectStore | chat-widget/src/hooks/useWebSocket.ts:35-86 | after a connect the store is neither connected nor connecting; the error is cleared, or is "Failed to establish connection" when the URL does not parse; messages unchanged |
| ClientConnection.ConnectQuery | chat-widget/src/hooks/useWebSocket.ts:39-44 | the socket URL always carries the user, and carries the project exactly when it is truthy |
| ClientConnection.HandleFrame | chat-widget/src/hooks/useWebSocket.ts:90-126 | one frame adds at most one message, and only an assistant message for an id not yet stored; stored messages keep their position, id, role and status; the open flag and draft are untouched |
| ClientConnection.AssistantFrameUpdatesExisting | chat-widget/src/hooks/useWebSocket.ts:92-99 | an `assistant_message` with a known id replaces that content, keeps the count and every id and status |
| ClientConnection.AssistantFrameAppendsNew | chat-widget/src/hooks/useWebSocket.ts:100-111 | an `assistant_message` with a new id appends one assistant message, `sent` if complete, else `streaming` |
| ClientConnection.IgnoredFrames | chat-widget/src/hooks/useWebSocket.ts:54-126 | unparsable frames, `assistant_message` frames lacking id or content, `error` frames without `data`, and `connection_status` or unknown types change nothing |
| ClientConnection.ErrorFrameSetsError | chat-widget/src/hooks/useWebSocket.ts:115-117 | an `error` frame records `data.error`, or "An error occurred" when it has none, and marks the store disconnected |
| ClientConnection.Connection.constructor | chat-widget/src/hooks/useWebSocket.ts:12-15 | no socket, no attempts, no pending timer, the store's initial state |
| ClientConnection.Connection.Connect | chat-widget/src/hooks/useWebSocket.ts:29-87 | nothing happens while the socket is open or connecting; otherwise the store is reset as `ConnectStore` says and, when the URL parses, one socket is created with the user and truthy project as query |
| ClientConnection.Connection.OnOpen | chat-widget/src/hooks/useWebSocket.ts:48-52 | the socket is open, the store connected without error, and the attempt counter is 0 |
| ClientConnection.Connection.OnClosing | chat-widget/src/hooks/useWebSocket.ts:29-33 | a close started by the server or the network leaves the socket closing, neither open nor connecting, until the close event; nothing else changes |
| ClientConnection.Connection.OnClose | chat-widget/src/hooks/useWebSocket.ts:63-74 | the store is disconnected; an unclean close below 5 attempts schedules exactly one new timer with `Backoff(attempts)`, a clean close or 5 attempts schedules nothing |
| ClientConnection.Connection.CloseHandler | chat-widget/src/hooks/useWebSocket.ts:63-74 | the close handler of the current or a forgotten socket leaves the current socket as it is; it marks the store disconnected, and on an unclean close below 5 attempts it schedules exactly one timer with `Backoff(attempts)` |
| ClientConnection.Connection.OnError | chat-widget/src/hooks/useWebSocket.ts:76-80 | the store records "Connection failed. Please try again." and is disconnected |
| ClientConnection.Connection.FireRetry | chat-widget/src/hooks/useWebSocket.ts:69-72 | the timer is consumed, attempts grow by exactly 1 (staying at most 5 without overlapping timers), then `connect` runs |
| ClientConnection.Connection.Send | chat-widget/src/hooks/useWebSocket.ts:129-165 | not open: "Not connected. Please wait for connection.", nothing stored or transmitted; open: one `sending` user message appended (still `sending` afterwards) and one `user_message` envelope with the same id and content transmitted, or "Failed to send message" when the send throws |
| ClientConnection.Connection.OnFrame | chat-widget/src/hooks/useWebSocket.ts:54-61 | the store becomes `HandleFrame` of the frame; nothing else changes |
| ClientConnection.Connection.Disconnect | chat-widget/src/hooks/useWebSocket.ts:168-177 | the latest timer is cleared, the socket forgotten and the store disconnected |
| ClientConnection.RetriesStopAfterFive | chat-widget/src/hooks/useWebSocket.ts:63-74 | with unclean closes and no open, exactly five retries fire with delays 1000, 2000, 4000, 8000, 10000, and the sixth close schedules none |
| ClientConnection.SendAndConnectWhileClosing | chat-widget/src/hooks/useWebSocket.ts:29-133 | while a socket is closing, a send reports "Not connected. Please wait for connection." and transmits nothing, and a connect creates a second socket |
| ClientConnection.DisconnectWhileConnectingReconnects | chat-widget/src/hooks/useWebSocket.ts:63-177 | a `disconnect` while connecting is followed by the forgotten socket's unclean close, whose retry creates a second socket that is connecting |
| ClientConnection.OverlappingRetryOutlivesDisconnect | chat-widget/src/hooks/useWebSocket.ts:167-177 | after a manual reconnect while a retry is pending, one retry timer survives `disconnect` |
| EdgeRouter.SessionSegment | chat-worker/src/index.ts:32 | the session id is the third `/`-separated piece of the path and holds no `/` |
| EdgeRouter.Route | chat-worker/src/index.ts:12-50 | a request is forwarded only for a non-OPTIONS socket path, to a non-empty slash-free name |
| EdgeRouter.OptionsAlwaysPreflight | chat-worker/src/index.ts:24-28 | OPTIONS gets the CORS preflight with no body on every path |
| EdgeRouter.SocketRoute | chat-worker/src/index.ts:31-42 | `/socket/<id>` plus nothing or `/...` goes to session `<id>`, or 400 "Session ID required" when `<id>` is empty; `/socket/a/x` routes like `/socket/a` |
| EdgeRouter.SocketPrefixWins | chat-worker/src/index.ts:31-42 | a socket path is forwarded or refused, never served by a later route |
| EdgeRouter.HealthRoute | chat-worker/src/index.ts:45-50 | `/health` is 200 "OK" with CORS headers |
| EdgeRouter.IframeEmbedRoute | chat-worker/src/index.ts:179-185 | `/embed.js` is served as `application/javascript` with `public, max-age=3600` |
| EdgeRouter.PureJsEmbedRoute | chat-worker/src/index.ts:415-421 | `/embed-js.js` is served as `application/javascript` with `public, max-age=3600` |
| EdgeRouter.UnmatchedNotFound | chat-worker/src/index.ts:424-427 | a request gets 404 "Not Found" exactly when its path matches no route |
| Integration.UntaggedAssistantFramesIgnored | chat-widget/src/hooks/useWebSocket.ts:93 | any run of `assistant_message` envelopes without `messageId` leaves the widget's store unchanged |
| Integration.ServerReplyInvisibleToClient | chat-worker/src/durable-object.ts:76-148 | the session object's entire answer to a user message leaves the widget's store unchanged |
| Integration.ServerErrorShowsDefaultText | chat-widget/src/hooks/useWebSocket.ts:115-117 | a session error frame makes the widget show "An error occurred", not the session's text |
| Integration.ClientQueryOnServer | chat-widget/src/hooks/useWebSocket.ts:40-44 | the session object derives the widget's user (or "anonymous" when empty) and its truthy project from the socket URL |
| Integration.SentMessageReply | chat-widget/src/hooks/useWebSocket.ts:150-157 | a sent message is answered as a user message for exactly the typed content, which appears verbatim in the mock text |

## Left out

- The retrieval/generation bridge, the response cleaning pass and the key-value persistence: the code has only the mock answer. The storage binding is declared but never used.
- The socket runtime, streams and timers. A socket is the log of envelopes sent on it. A stream is a chunk sequence that may end in a rejected read. A timer is an entry in the pending map. The 50 ms pacing between words is timing only.
- `JSON.parse` / `JSON.stringify`: frames are datatypes, and a parse result is one of three variants. A non-string `content` is represented by its string rendering. That is how the session's template literal reads it, but not how the widget's truthiness tests do: a `content` or `error` of `0`, `false` or `null` is falsy there, so the widget ignores the frame or shows the default error text, while `HandleFrame` sees the truthy strings `"0"`, `"false"` or `"null"` and stores or shows them.
- The session object's naming and placement (`idFromName`, `get`): a route result names the target session. The CORS header values are a flag, and the two embedded script bodies are tags.
- `Date.now()` and `Math.random()`: message ids take a stamp parameter and timestamps a `now` parameter. Only the `msg_` prefix of the id is modelled.
- Logging and the React lifecycle: `useEffect` connecting on mount and disconnecting on unmount, and the store's subscription selectors.
- Handlers of a socket other than the current one: only the close handler is modelled (`CloseHandler`), because it is the one that schedules retries. The open, message and error handlers of a forgotten socket are not modelled.
- A `send` that throws on a socket the client closed mid-stream. On the session side, the only failure modelled inside the pipeline is a rejected stream read, and the mock stream never rejects.
- Interleaving of concurrent handlers. Two user messages on one socket could interleave their streams at `await` points; the model runs each handler to completion.
- URL parsing: the path is taken as the already-normalised `pathname`, and query parameters as already-decoded values.
- The `isExpanded` and `mode` fields of the widget's state type: the store never sets them, and the actions that would (`toggleExpanded`, `setMode`) are not defined.
- The embed scripts, React components, build configuration and network test scripts.
