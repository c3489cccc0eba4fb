# bare-mux, modelled in Dafny

bare-mux lets a page or service worker make HTTP requests and open
WebSockets through a pluggable *transport*. There are two layouts:

- The older client (`src/BareClient.ts`) looks the active transport up in a
  registry (`src/Switcher.ts`) and calls it directly.
- The newer client (`src/client.ts`) talks to a shared worker
  (`src/worker.ts`, `src/workerHandlers.ts`), which holds the transport.

This project models the rules around the transport. The transport itself
stays abstract.

- **Subprotocol token check** (`SubprotocolToken`, token.dfy). `validProtocol`
  is a loop proved equal to a recursive specification. The accepted set is
  proved to be exactly `tchar` of section 3.2.6 of RFC 7230: 77 characters.
- **Redirect loop of `fetch`** (`FetchRules`, fetch_rules.dfy).
  - It covers the host header each hop writes, the statuses whose body is
    dropped, and the `follow` / `error` / `manual` modes with the 20-redirect
    cap of section 4.4 of the WHATWG Fetch Standard.
  - `Chain` is the whole loop as a recursive function. The two clients'
    `while` loops are proved equal to it, and its properties are proved as
    lemmas.
- **Direct client** (`DirectClient`, direct_client.dfy).
  - `createWebSocket` checks its arguments in the source's order, writes the
    upgrade headers into the caller's record and returns a stand-in socket
    whose fake readyState and protocol the transport's callbacks drive.
  - `fetch` runs the loop against the registry's active transport.
- **Worker-RPC client** (`RpcClient`, rpc_client.dfy). `fetch` sends every
  hop to the worker as a `fetch` message. `BareMuxConnection.setTransport`
  sends one `set` message.
- **Client-side WebSocket** (`WebSocketProxy`, socket.dfy). `BareWebSocket`
  has frames from the worker drive `readyState`. `send` and `close` post
  commands back to the worker.
- **Worker handlers** (`WorkerHandlers`, worker_handlers.dfy).
  - `sendError`, `handleFetch` with its reply body and transfer list, and
    `handleWebsocket`.
  - The callback-to-frame encoding is proved to round-trip with the client's
    frame decoder. The command-to-call decoding is proved to round-trip with
    the client's `send`/`close`.
- **Worker dispatcher** (`WorkerDispatch`, worker.dfy). It models the state
  `currentTransport`/`currentTransportName` and the five message types:
  - `set` replaces the transport and its name together, or neither.
  - Every message gets exactly one reply or one forward.
- **Transport registry** (`Registry`, switcher.dfy). `Switcher`,
  `findSwitcher`'s cache, `AddTransport` and `SetTransport`.
- **The two revisions side by side** (`EndToEnd`, end_to_end.dfy).
  - If the worker relays the transport's answers and the request's body is
    not a stream, the worker-RPC `fetch` produces the same run as the direct
    one: same hops, result and headers.
  - A stream body never reaches the worker: it is posted without being
    transferred, so the first hop rejects (see "## Findings").
  - A ready local transport behind the worker does relay them.

Shared vocabulary:

- js.dfy: JavaScript values, `String()`, truthiness, exceptions, URLs and the
  readyState constants of `src/snapshot.ts`.
- wire.dfy: the messages, replies, frames and commands posted on ports.
- transport.dfy: the transport as a class with a `ready` flag, whose calls are
  recorded and whose answers are fixed functions of the request.
- wrappers.dfy: `Option` and `Result`.

The parts that stay abstract are parameters of the members that use them:

- URL parsing and resolution (`new URL`);
- the case-insensitive `Location` lookup (`Headers.get`);
- the host's native `fetch`;
- reading a stream into a buffer;
- the worker's answer to a message;
- the outcome of a `set` message's transport factory;
- how `new Request(url, init)` and `new URL(req.url)` come out in `fetch` (`prepared`);
- how each `findSwitcher()` of the direct client comes out (`found`, `retry`).

## Model

| member | source | states |
|---|---|---|
| SubprotocolToken.ValidProtocol | src/webSocket.ts:8-18 | The scan returns true exactly when every character of the name is an accepted character (`Valid`). |
| SubprotocolToken.ValidIffEveryChar | src/webSocket.ts:9-15 | `Valid(s)` holds if and only if every character of `s` occurs in `validChars`. |
| SubprotocolToken.ValidConcat | src/webSocket.ts:8-17 | A concatenation is valid exactly when both parts are. |
| SubprotocolToken.ValidPrefixClosed | src/webSocket.ts:8-17 | Every prefix of a valid name is valid. |
| SubprotocolToken.EmptyIsValid | src/webSocket.ts:9-17 | The empty name is accepted. |
| SubprotocolToken.BadCharRejects | src/webSocket.ts:12-14 | A single non-`tchar` character anywhere rejects the name. |
| SubprotocolToken.SeparatorsRejected | src/webSocket.ts:12-14 | Space, `,`, `/`, `(`, `"` and every character above U+007E are rejected. |
| SubprotocolToken.TcharMembership | src/webSocket.ts:5-6 | A character is in `validChars` exactly when it is a `tchar` of RFC 7230: one of the 15 symbols, a digit or a letter. |
| SubprotocolToken.ValidCharsRuns | src/webSocket.ts:5-6 | `validChars` is the symbols `!`…`.`, the digits, `A`–`Z`, ``^_` ``, `a`–`z` and `\|~`, in that order. |
| SubprotocolToken.ValidCharsCount | src/webSocket.ts:5-6 | `validChars` has 77 distinct characters; 15 of them are symbols. |
| FetchRules.WithHost | src/BareClient.ts:314-315 | A hop writes the host under `host` when that key exists and under `Host` otherwise. It adds no other key and changes no other value. |
| FetchRules.WithHostNeverBoth | src/client.ts:159-160 | After a hop, both spellings are present only if the caller's record already had both. |
| FetchRules.WithHostStable | src/client.ts:159-160 | Later hops keep writing the key the first hop chose, and only the latest host remains. |
| FetchRules.BodyOf | src/BareClient.ts:326-327 | A `Response` built from `undefined` or `null` has no body; any other body is kept. |
| FetchRules.ShapeResponse | src/BareClient.ts:326-336 | The `Response` constructor converts the status to an `unsigned short` (modulo 2^16) and refuses one outside 200–599 with a RangeError, so 101 is refused. Otherwise the converted status, status text and headers are copied. The body is dropped for 204, 205 and 304. `rawHeaders`/`rawResponse` keep what the transport sent. `finalURL` is the hop's URL. |
| FetchRules.ResponseStatus | src/BareClient.ts:329 | The status the `Response` constructor keeps is below 2^16, and equals the given status when that is already in range. |
| FetchRules.SwitchingProtocolsThrows | src/BareClient.ts:14 | A 101 response, listed among the bodyless statuses, is refused by the `Response` constructor with a RangeError. |
| FetchRules.Decide | src/BareClient.ts:340-355 | A non-redirect status is returned. A redirect status throws "Failed to fetch" in `error` mode and is returned in `manual` mode. In `follow` mode it redirects exactly when `i < 20`, a `Location` exists and it resolves, and it then goes to the resolved URL; otherwise it throws. |
| FetchRules.Judge | src/client.ts:172-201 | The branch-by-branch decision equals `StepOf`: a rejected request throws its error, a status the `Response` constructor refuses throws its RangeError, and otherwise `Decide` runs on the shaped response. |
| FetchRules.Chain | src/BareClient.ts:313-357 | The loop makes between 1 and 21 requests. The first goes to the start URL with its host written into the record. |
| FetchRules.ChainHostHeader | src/BareClient.ts:313-315 | Every hop holds its own URL's host under the key the caller's record chose, and never adds the second spelling. |
| FetchRules.ChainResultFromLastHop | src/BareClient.ts:326-336 | A returned response is the shaped response of the last hop. Its `finalURL` is that hop's URL, and it has no body when the transport's status is 204, 205 or 304. |
| FetchRules.ChainHopsLinked | src/BareClient.ts:340-346 | Each later hop goes to the `Location` of the previous hop's redirect response, resolved against the previous URL, in `follow` mode. |
| FetchRules.ChainNoRedirect | src/BareClient.ts:326-356 | A first response whose status is not a redirect ends the loop after exactly one request: it is returned as shaped, or the `Response` constructor's RangeError is thrown. |
| FetchRules.ChainStatusOutOfRange | src/BareClient.ts:326-331 | A first response whose status is outside 200–599 after conversion ends the loop after exactly one request with the RangeError. |
| FetchRules.ChainRedirectOnlyManual | src/BareClient.ts:349-352 | A response with a redirect status reaches the caller only in `manual` mode. |
| FetchRules.ChainRedirectCap | src/BareClient.ts:344-347 | A server that always redirects with a resolvable `Location` costs exactly 21 requests in `follow` mode, and the loop ends in "Failed to fetch". |
| FetchRules.ChainSameSender | src/client.ts:158-203 | The loop depends on how requests are sent only through their answers: two senders that always answer alike give the same run. |
| WebSocketProxy.ReadyStateAfterChanges | src/websocket.ts:91-101 | Message frames and unknown frames leave `readyState` as it was. After any open, close or error frame it is OPEN or CLOSED. |
| WebSocketProxy.MessageDataKeepsBytes | src/websocket.ts:49-65 | A message is dispatched exactly when its payload is a string or an object. Strings go as they are. Under `"blob"` a buffer or view becomes a blob, under `"arraybuffer"` a blob becomes a buffer, and the bytes are the same either way. |
| WebSocketProxy.StillConnecting | src/websocket.ts:116-121 | A new socket stays CONNECTING, so `send` keeps throwing, exactly until an open, close or error frame arrives. |
| WebSocketProxy.WithDefault | src/websocket.ts:24 | An `undefined` subprotocol argument becomes `[]`; anything else is kept. |
| WebSocketProxy.ProtocolOf | src/websocket.ts:137-143 | The `protocol` getter gives the first list entry, or the single value, when that is truthy, and `""` otherwise. |
| Js.SliceBytes | src/websocket.ts:124 | `ArrayBuffer.slice` takes exactly the byte range when it lies inside the buffer. An end past the buffer is clamped to its length. A start at or past the end, or an end at or before the start, gives no bytes. |
| Js.JoinDecimal | src/BareClient.ts:128 | `String` of a `Uint8Array` is empty exactly for an empty array, and a one-byte array prints as that byte in decimal. |
| Js.JoinDecimalCommas | src/BareClient.ts:128 | `String` of any byte view prints only digits and commas. It holds a comma exactly when the view has two or more bytes. |
| Wire.FirstUncloneable | src/connection.ts:151-163 | It finds nothing exactly when every stream or port among the values is in the transfer list. What it finds is such a value that the list lacks. |
| WebSocketProxy.SendPayload | src/websocket.ts:123-124 | A typed view is sent as a new buffer holding exactly its `byteLength` bytes from `byteOffset`. Other values go as they are. |
| WebSocketProxy.BareWebSocket.constructor | src/websocket.ts:9-113 | A new socket is CONNECTING with `binaryType` `"blob"`, and keeps the URL and the (defaulted) subprotocols. It sends one `websocket` message whose transfer list is the channel. |
| WebSocketProxy.BareWebSocket.HandleFrame | src/websocket.ts:33-101 | One frame moves `readyState` as `ReadyStateAfter` says. Open, close and error frames dispatch one matching event. A message frame dispatches its payload as `MessageData` converts it; a payload that is `undefined`, `null`, a boolean or a number makes the `in` test throw, and nothing changes. Other frames change nothing. An open frame records its protocol. |
| WebSocketProxy.BareWebSocket.Send | src/websocket.ts:116-127 | Throws only while CONNECTING, so it still posts in CLOSING and CLOSED. An `undefined` or `null` argument throws reading `buffer` of that value. A stream or port throws `DataCloneError` with nothing posted, because only a buffer is transferred. Anything else posts exactly one `data` command with the payload, transferring it when it is a buffer. |
| WebSocketProxy.BareWebSocket.Close | src/websocket.ts:129-132 | Sets CLOSING, never CLOSED, and posts one `close` command carrying the code and reason. |
| WebSocketProxy.BareWebSocket.BufferedAmount | src/websocket.ts:134-136 | Always 0. |
| WebSocketProxy.BareWebSocket.Extensions | src/websocket.ts:144-146 | Always `""`. |
| Registry.Switcher.constructor | src/Switcher.ts:29-32 | A new switcher has no transports and nothing active. |
| Registry.Switcher.Add | src/Switcher.ts:59-61 | Registers the transport under its name, replacing an earlier one and changing no other entry. It becomes active only when nothing was. |
| Registry.Switcher.Select | src/Switcher.ts:66 | The active transport becomes the one registered under the name, or none for an unknown name. |
| Registry.FindSwitcher | src/Switcher.ts:34-53 | A cached switcher is returned unchanged. Otherwise a parent's switcher is cached and returned. A throwing walk caches a fresh empty one. A walk that finds nothing throws "unreachable". |
| Registry.AddTransport | src/Switcher.ts:55-62 | `Add` on the switcher `findSwitcher` yields. |
| Registry.SetTransport | src/Switcher.ts:64-67 | `Select` on the switcher `findSwitcher` yields; the map is unchanged. |
| DirectClient.NormalizeProtocols | src/BareClient.ts:126-128 | `undefined` gives `[]`, a single value a one-element list, and every entry is passed through `String` (a view prints its elements). |
| DirectClient.FirstInvalid | src/BareClient.ts:130-134 | It names the first entry that fails the token check, or none when all pass. |
| DirectClient.FindInvalidProtocol | src/BareClient.ts:130-134 | The loop stops at exactly the entry `FirstInvalid` names. |
| DirectClient.FirstInvalidIs | src/BareClient.ts:130-134 | An invalid entry preceded only by valid ones is the first invalid entry. |
| DirectClient.FirstRepeat | src/BareClient.ts:138 | It names the first entry equal to an earlier one, before which all entries are distinct, or none exactly when all entries are distinct. |
| DirectClient.NativeCheck | src/BareClient.ts:138 | The dummy socket's constructor throws a SyntaxError for an empty subprotocol, else for the first repeated one, and accepts the list exactly when it has neither. |
| DirectClient.CheckWebSocketArgs | src/BareClient.ts:104-138 | The checks fail in order: no active transport, transport not ready, unparsable URL, scheme other than `ws:`/`wss:`, first invalid subprotocol, then the host `WebSocket` constructor's own check. Each failure has its own error. The checks pass exactly when none applies: every name is a token, none is empty and none repeats. |
| DirectClient.ViewProtocolValid | src/BareClient.ts:126-134 | A byte view given as a subprotocol passes the token check exactly when it holds at most one byte. Any longer view prints a comma and is rejected. |
| DirectClient.CheckArgs | src/BareClient.ts:104-138 | The checks as the method makes them equal `CheckWebSocketArgs`. |
| DirectClient.UpgradeHeaders | src/BareClient.ts:162-168 | Writes `Host`, `Pragma`, `Cache-Control`, `Upgrade` and `Connection` with their values and leaves every other key as it was. |
| DirectClient.AsList | src/BareClient.ts:169-173 | The transport receives the normalised subprotocols as a list of strings, in order. |
| DirectClient.FakeSocket.constructor | src/BareClient.ts:138-158 | The fake socket starts CONNECTING with protocol `""`, `binaryType` `"blob"`, and neither initial dummy event seen. |
| DirectClient.FakeSocket.OnOpen | src/BareClient.ts:174-184 | The open callback sets OPEN, records the protocol and dispatches one open event. |
| DirectClient.FakeSocket.OnMessage | src/BareClient.ts:185-204 | A string, buffer, view or blob payload dispatches one message event, converted as `binaryType` says. Any other payload dispatches nothing. |
| DirectClient.FakeMessageData | src/BareClient.ts:185-204 | The fake socket dispatches exactly for strings, buffers, views and blobs, and then converts as `BareWebSocket` does. |
| DirectClient.FakeSocket.OnClose | src/BareClient.ts:205-208 | The close callback sets CLOSED and dispatches a close event on the dummy socket, which meets the dummy's own close listener (src/BareClient.ts:152-158). The event reaches the page only if a close already passed that listener. Either way the listener is now spent. |
| DirectClient.FakeSocket.OnError | src/BareClient.ts:209-211 | The error callback sets CLOSED and dispatches nothing. |
| DirectClient.FakeSocket.OnDummyError | src/BareClient.ts:144-151 | The dummy socket's first `error` sets the fake readyState back to CONNECTING, even after an open, and is kept from the page. A later one reaches the page and changes nothing. |
| DirectClient.FakeSocket.OnDummyClose | src/BareClient.ts:152-158 | The shared close listener stops the first close it sees, whether the dummy socket's own or the transport's. A later one reaches the page. The listener never changes the fake readyState. |
| DirectClient.FakeSocket.Send | src/BareClient.ts:230-247 | Throws while CONNECTING. Otherwise exactly its first argument goes to the transport's `sendData`. |
| DirectClient.CreateWebSocket | src/BareClient.ts:97-264 | A throwing `findSwitcher` or a failed check returns its error with nothing written or connected. Otherwise the upgrade headers are written and the transport gets one `connect` with the URL, the subprotocol list and the headers. When that returns, a new socket is returned: CONNECTING, no protocol, no `meta`, `binaryType` "blob", no events, and neither initial listener spent. Only the header record and the transport's `connect` log may change. |
| DirectClient.RequestsOfIndex | src/BareClient.ts:318-324 | Request `k` goes to hop `k`'s URL with hop `k`'s header record. |
| DirectClient.Attempt | src/BareClient.ts:314-355 | One pass writes the host header, sends exactly one request to the transport and decides as `StepOf` says. |
| DirectClient.FollowRedirects | src/BareClient.ts:313-357 | The loop's result, final header record and requests are those of `Chain` over the transport. |
| DirectClient.Fetch | src/BareClient.ts:266-358 | A failed `new Request`/`new URL` is thrown with nothing touched. A `blob:` URL goes to the native `fetch` and touches nothing. A throwing lookup, or no active transport after the second lookup, is thrown. A transport that is not ready gets exactly one `init`, and is ready afterwards exactly when `init` succeeds. An `init` failure is thrown with no request sent. Otherwise the result, headers and requests are those of `Chain` with the body `DirectBody` picks. Only the chosen transport's `ready`, `init` count and request log may change. |
| DirectClient.DirectBody | src/BareClient.ts:286 | Every hop sends a truthy `init.body`, and the parsed request's `body` otherwise. |
| DirectClient.Chosen | src/BareClient.ts:303-310 | `fetch` uses the first lookup's active transport, else the second lookup's. A throwing lookup gives its error, and no active transport after both gives "there are no bare clients". |
| RpcClient.Settle | src/connection.ts:153-162 | An `error` reply rejects with its error; any other reply resolves to itself. |
| RpcClient.WorkerConnection.SendMessage | src/connection.ts:129-165 | If the message holds a stream or port that the transfer list lacks, `postMessage` throws `DataCloneError`: nothing is posted and the call rejects. Otherwise exactly one message is posted and settled by the worker's reply. |
| RpcClient.BareMuxConnection.SetTransport | src/client.ts:96-101 | Exactly one `set` message carrying the string itself as `client` is sent; a string always clones. It fails exactly when the worker replies `error`, and then with that error. |
| RpcClient.BareMuxConnection.SetTransportFactory | src/worker.ts:36-44 | One `set` message whose `client` has the factory code as `function` and the constructor arguments as `args`, the shape the worker reads. It fails exactly when the worker replies `error`. An argument that is a stream or port stops the message with `DataCloneError`. |
| RpcClient.BareMuxConnection.SendSet | src/client.ts:97-100 | One `set` message with the given `client` and nothing transferred. It fails with the clone error when the `client` holds a stream or port. Otherwise it fails exactly when the worker replies `error`, and then with that error. |
| RpcClient.FetchRequest | src/client.ts:162-170 | A hop's message is `fetch` with the URL's string form, the method, the body and the header record. It fails to clone exactly when the body is a stream or port missing from the transfer list. |
| RpcClient.Unwrap | src/client.ts:162-170 | A `fetch` reply yields its response. An `error` reply rejects with its error. Any other reply fails reading `status`. |
| RpcClient.MessagesOfIndex | src/client.ts:162-170 | Message `k` is the `fetch` of hop `k`'s URL with hop `k`'s header record. |
| RpcClient.Attempt | src/client.ts:159-201 | One pass writes the host header and decides as `StepOf` says for the reply. It sends exactly one `fetch` message, unless the body is a stream: then nothing is sent and the step throws `DataCloneError`. |
| RpcClient.FollowRedirects | src/client.ts:158-203 | The loop's result and final header record are those of `Chain` over the worker. Its messages are one per hop of that run, or none when the body is a stream. |
| RpcClient.Fetch | src/client.ts:124-204 | A failed `new Request`/`new URL` is thrown with no message sent. A `blob:` URL goes to the native `fetch` with no message sent. Anything else matches `Chain`, with the parsed request's `body` on every hop. A stream body rejects on the first hop with nothing sent. |
| RpcClient.StreamBodyRejected | src/client.ts:141-170 | As written, a request whose body is a stream gets a run of exactly one hop. That hop rejects with `DataCloneError` for the body, whatever the worker would answer. |
| RpcClient.ClonableBodyReachesWorker | src/client.ts:162-170 | Any body other than a stream or port reaches the worker, and the hop reads back the worker's reply. |
| RpcClient.AttemptTransferring | src/client.ts:159-201 | The corrected pass puts a stream body in the transfer list. It always sends exactly one `fetch` message and decides on the worker's reply. |
| RpcClient.HopMessages | src/client.ts:158-170 | Message `k` of a run is a `fetch` for hop `k`'s own URL. The record carries that URL's host under the caller's key. |
| WorkerHandlers.SendError | src/workerHandlers.ts:4-7 | Exactly one `error` reply carrying the error is posted. |
| WorkerHandlers.ReplyBody | src/workerHandlers.ts:18-21 | Where streams cannot be transferred, a stream body is replaced by its bytes, so no stream is left. Otherwise the body is kept. |
| WorkerHandlers.FetchReplyOf | src/workerHandlers.ts:18-27 | The `fetch` reply carries the response with that body. The body is in the transfer list exactly when it is a stream or a buffer. |
| WorkerHandlers.HandleFetch | src/workerHandlers.ts:9-28 | An unparsable URL fails before the transport is called. Otherwise there is one `request` with the message's URL, method, body and headers. A rejection posts nothing; a response posts exactly one `fetch` reply. |
| WorkerHandlers.EncodeCallback | src/workerHandlers.ts:31-46 | open, message, close and error become frames of that type with their arguments in order. Only a buffer message is transferred. |
| WorkerHandlers.FrameRoundTrip | src/workerHandlers.ts:31-46 | The client's decoder at src/websocket.ts:91-101 sends each frame to the handler of its callback, with the same arguments in the same order. |
| WorkerHandlers.CallbackEffect | src/workerHandlers.ts:31-46 | On the client, open makes the socket OPEN, close and error make it CLOSED, and message leaves it as it was. |
| WorkerHandlers.DecodeCommand | src/workerHandlers.ts:57-63 | A `data` command becomes a `data` call. A `close` command becomes a `close` call with code and reason. Anything else is ignored. |
| WorkerHandlers.CommandRoundTrip | src/workerHandlers.ts:57-63 | What the client's `send` and `close` post arrives as the matching call, with its arguments in place. |
| WorkerHandlers.Channel.Emit | src/workerHandlers.ts:31-46 | One callback posts exactly its encoded frame on the channel. |
| WorkerHandlers.OnCommand | src/workerHandlers.ts:57-63 | A command makes at most one transport call: the decoded one. |
| WorkerHandlers.HandleWebsocket | src/workerHandlers.ts:30-66 | An unparsable URL fails before `connect`. Otherwise there is one `connect` with the URL, origin, subprotocols and headers. If it returns, exactly one `websocket` reply is posted; if it throws, nothing is. |
| WorkerDispatch.RemoteName | src/worker.ts:38 | A remote transport is named `bare-mux-remote (` + `String(args[1])` + `)`, and the name always starts with that prefix. |
| WorkerDispatch.SetOutcome | src/worker.ts:32-51 | A remote spec stores `args[0]` under the derived name. A `client` without `function` (a string, in particular) replies with the destructuring TypeError. Otherwise a factory success stores its transport and name, and a factory failure replies with its error. Every `error` reply leaves the state as it was. |
| WorkerDispatch.SetAtomic | src/worker.ts:36-50 | After `set`, the transport and name were either both replaced (reply `set`) or both kept (reply `error`). |
| WorkerDispatch.SetTextFails | src/worker.ts:36-42 | A string `client` never sets a transport: whatever the factory would do, the reply is the destructuring error and nothing changes. |
| WorkerDispatch.SetCodeReachesFactory | src/worker.ts:40-48 | A `client` with factory code succeeds exactly when the factory does, and then the built transport and its name are current. |
| WorkerDispatch.RouteOf | src/worker.ts:56-61 | With no truthy transport there are no clients. A port is forwarded to. A local transport is delegated to. Any other stored value cannot be initialised. |
| WorkerDispatch.ForwardTransfer | src/worker.ts:18-24 | The forwarded transfer list is the reply port, then a truthy fetch body, then a socket's channel. |
| WorkerDispatch.FetchOutcome | src/worker.ts:54-66 | A local `fetch` ends in one `fetch` reply or one `error` reply. An unparsable URL gives the URL error. |
| WorkerDispatch.WebSocketOutcome | src/worker.ts:67-79 | A local `websocket` ends in one `websocket` reply exactly when the URL parses and `connect` returns; otherwise one `error` reply. |
| WorkerDispatch.LocalReply | src/worker.ts:61-63 | A transport that was not ready and fails `init` gives that error. Otherwise the reply is the handler's. |
| WorkerDispatch.ServedRequests | src/workerHandlers.ts:9-28 | A served message gives one request exactly when it is a `fetch` whose URL parses. That request carries the parsed URL, method, body and headers. |
| WorkerDispatch.ServedConnects | src/workerHandlers.ts:30-66 | A served message gives one connection exactly when it is a `websocket` whose URL parses. That connection carries the parsed URL, origin, subprotocols and headers. |
| WorkerDispatch.Serve | src/worker.ts:54-79 | `init` is called exactly when the transport is not ready, and the transport is ready afterwards exactly when it was or `init` succeeded. A ready transport then gets exactly one `request` for a parsed `fetch` URL, or one `connect` for a parsed `websocket` URL, and nothing else. A failed `init` sends no request and makes no connection. One reply is posted either way. |
| WorkerDispatch.Worker.constructor | src/worker.ts:5-6 | No transport and the empty name at start. |
| WorkerDispatch.Worker.HandleSet | src/worker.ts:32-51 | The new state and the one reply are those of `SetOutcome`. |
| WorkerDispatch.Worker.Dispatch | src/worker.ts:54-79 | No clients posts the "there are no bare clients" error. A remote port gets the whole message forwarded with its transfer list and nothing is posted locally. A local transport posts exactly `LocalReply`, and its state changes as `Serve` states. Only a local transport may change. |
| WorkerDispatch.Worker.HandleMessage | src/worker.ts:26-82 | Every message gets exactly one reply or one forward. `ping` replies `pong` and `get` replies the name, whatever the state. `set` is `SetOutcome`. None of these three touches a transport. `fetch`/`websocket` leave the transport and its name unchanged. With no clients they reply that error. A non-transport value replies the `init` TypeError. A port gets the message forwarded. A local transport replies `LocalReply`, and its `ready`, `init` count and logs change as `Serve` states. |
| EndToEnd.Relay | src/workerHandlers.ts:23-27 | A transport response becomes a `fetch` reply carrying it, and a rejection an `error` reply. |
| EndToEnd.UnwrapRelay | src/client.ts:162-170 | The client reads back exactly what the worker relayed. |
| EndToEnd.TransferredHopRelays | src/client.ts:162-170 | Once a hop's message reaches a relaying worker, for any body, the hop reads back what the transport answers the direct client's request with that body. |
| EndToEnd.RevisionsAgree | src/client.ts:141-203 | Over a relaying worker, with a body that clones and a falsy `init.body`, the worker-RPC loop makes the same hops, result and header record as the direct loop of src/BareClient.ts:286-357. |
| EndToEnd.BodiesDiffer | src/client.ts:141 | With a truthy `init.body` other than the request's own `body`, the two revisions send different bodies (src/BareClient.ts:286 takes `init.body`). |
| EndToEnd.SetTransportAlwaysFails | src/client.ts:96-101 | Against the worker's `set`, `setTransport` as written always rejects with the destructuring TypeError. |
| EndToEnd.SetTransportFactoryReaches | src/worker.ts:36-48 | The corrected `setTransport` succeeds exactly when the worker's factory does. |
| EndToEnd.WorkerRelaysHop | src/worker.ts:54-63 | A ready local transport behind the worker answers a hop's message with the relayed outcome of that hop's request. This holds under two conditions: streams can be transferred, and parsing the URL's string form gives back that same URL. Two different URL values may share a string form. |

## Left out

- src/connection.ts (finding the worker, the liveness ping, the 1 s and 1.5 s timeouts, the retries) is not part of this model. `sendMessage` is a call that posts one message and settles by a given answer.
- The `set` factory (`new AsyncFunction(...)`, then `new newTransport(...args)`) is the `factory` outcome parameter, except when `client.function` is missing. What it runs is foreign code.
- `new URL` and resolution against a base URL are the `parse` and `resolve` parameters. `Headers.get('location')` is the `location` parameter.
- WebSocketProxy.BareWebSocket.HandleFrame: the prototype swap (`Object.setPrototypeOf`) is not modelled. A blob converted under `binaryType` `"arraybuffer"` is dispatched at once, while the source first awaits `arrayBuffer()`, so a later frame may be handled before it. The same holds for `DirectClient.FakeSocket.OnMessage`.
- Reading a stream into an `ArrayBuffer` is the `drain` parameter.
- DirectClient.Fetch: the one-second wait before the second registry lookup is not modelled; the lookup itself is the `retry` parameter.
- DirectClient.CreateWebSocket: the dummy socket's connection attempt to port 1 is not modelled. Its `error` and `close` events are `FakeSocket.OnDummyError` and `FakeSocket.OnDummyClose`. The model also takes a `webSocketImpl` or an `arrayBufferImpl` to be given. With neither, src/BareClient.ts:161 throws after the dummy socket exists.
- `Registry.FindSwitcher`: the walk up the parent windows is the `walk` outcome parameter. It needs cross-origin window access.
- The request `signal` passed to `request` and `console` logging are left out.
- Interleaving between messages is left out. The model handles each message to completion before the next, while the source's handlers can interleave at their `await`s.
- The `createWebSocket` of src/client.ts only throws "todo", so it is not modelled.
- `BareWebSocket`'s legacy `on*` handler properties are left out. They call back into user code.
- Registry.Switcher: `transports` holds only the names registered. A JavaScript `Record` also answers inherited keys (`toString`, `constructor`, …). `SetTransport` with such a name makes the inherited value active in the source, but makes nothing active in the model.
- FetchRules.ShapeResponse: a status text or header that the `Response` constructor refuses with a TypeError is not modelled. Nor is a body sent with a status above 65535 that converts to 204, 205 or 304, which it also refuses. Only the status range check is.
- Js.ToJsString: every typed view is a `Uint8Array`. Other typed arrays and `DataView` are not modelled.
- `RpcClient.WorkerConnection.SendMessage`: the worker's reply is a fixed function of the message, so replies that depend on earlier messages are not modelled. The ping before each message and the retry on a dead port (src/connection.ts:131-148) are not modelled. The clone check knows only streams and ports as values that must be transferred. `DataCloneError` carries the offending value, not the browser's message text.
- RpcClient.AttemptTransferring: a stream, once transferred, is detached from the page, so a redirect hop could not send it again. The model does not track that, and proves only that each hop reaches the worker and relays (`EndToEnd.TransferredHopRelays`), not a whole corrected redirect loop.
- The dist/ builds and src/RemoteClient.ts (commented out) are older or empty copies and are not modelled.

## Notes on the code

- `BareMuxConnection.setTransport` (src/client.ts:96-101) sends the string itself as `client`. See "## Findings".
- The fake socket's error callback only sets CLOSED and dispatches nothing (src/BareClient.ts:209-211). `BareWebSocket`'s error handler dispatches an error event (src/websocket.ts:80-87). `FakeSocket.OnError` dispatches nothing.
- The dummy socket's first `error` event sets the fake readyState to CONNECTING (src/BareClient.ts:145-150), even when the transport has already opened the connection. `FakeSocket.OnDummyError` keeps this.
- A hop checks only whether a lowercase `host` key exists (src/BareClient.ts:314-315). A record that already holds both spellings keeps both. `WithHostNeverBoth` states what the code guarantees.
- `createWebSocket` writes `Host` with a capital H whatever the caller's record uses (src/BareClient.ts:162). Its invalid-URL message reads "Faiiled" (src/BareClient.ts:117). The model keeps both as written.
- The direct client sends `init.body` when it is truthy (src/BareClient.ts:286). The worker-RPC client always sends the parsed request's `body` (src/client.ts:141). `RevisionsAgree` therefore assumes a falsy `init.body`. It also assumes the parsed body is not a stream, which it is whenever the request has a body at all (see "## Findings").
- The messages of host errors are Chromium's wording: the `Response` status RangeError, the `WebSocket` constructor's SyntaxErrors, and the error for destructuring `undefined`. Other engines word them differently.

## Findings

| source | as written | input that shows it | evidently intended | confidence | as-written member | corrected member |
|---|---|---|---|---|---|---|
| src/client.ts:96-101 | `setTransport` sends the string as `client`. The worker (src/worker.ts:36-42) reads `client.function`, which is `undefined` for a string. It then builds an async function with the body `undefined`, and destructuring its `undefined` result throws a TypeError. | `setTransport("/epoxy/index.mjs")`, in any worker state: the reply is `error` with "undefined is not iterable", and no transport is set. | The message carries an object whose `function` is the factory code and whose `args` are the constructor arguments. It then succeeds exactly when the factory does (`EndToEnd.SetTransportFactoryReaches`). | not executed; follows from the source text | EndToEnd.SetTransportAlwaysFails | RpcClient.BareMuxConnection.SetTransportFactory |
| src/client.ts:141-170 | The loop posts the parsed request's `body` in the `fetch` message. The transfer list holds only the reply port (src/connection.ts:151). For any request with a body, `req.body` is a `ReadableStream`, which can be transferred but not cloned. | `fetch(url, { method: "POST", body: "x" })`: `postMessage` throws `DataCloneError` on the first hop, so `fetch` rejects and the worker receives nothing. | The body goes in the transfer list, so the hop reaches the worker and reads back the transport's answer (`EndToEnd.TransferredHopRelays`). A redirect could not re-send a transferred stream. | not executed; follows from the source text and the structured clone rules | RpcClient.StreamBodyRejected | RpcClient.AttemptTransferring |
