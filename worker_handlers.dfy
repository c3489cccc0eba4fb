/**
 * What the shared worker does for one `fetch` or `websocket` message once a
 * local transport is in hand, and how it replies on the message's port: the
 * fetch reply with its transfer list, the frames a transport's callbacks
 * become on a socket's channel, and the commands from that channel that
 * become calls on the transport.
 */
module WorkerHandlers {
  import opened Js
  import opened Wrappers
  import opened Wire
  import opened TransportModel
  import WebSocketProxy
  import FetchRules

  /** A port the worker replies on. */
  class ReplyPort {
    const id: nat
    var posted: seq<Posted<WorkerResponse>>

    constructor (id: nat)
      ensures this.id == id && posted == []
    {
      this.id := id;
      posted := [];
    }

    method Post(message: WorkerResponse, transfer: seq<Value>)
      modifies this`posted
      ensures posted == old(posted) + [Posted(message, transfer)]
    {
      posted := posted + [Posted(message, transfer)];
    }
  }

  /** `sendError(port, err, name)`: exactly one `error` reply carrying `err`. */
  method SendError(port: ReplyPort, err: Exception)
    modifies port`posted
    ensures port.posted == old(port.posted) + [Posted(ErrorReply(err), [])]
  {
    port.Post(ErrorReply(err), []);
  }

  /** The body a fetch reply carries: where streams cannot be transferred, a
      stream body is first read out into an `ArrayBuffer`. */
  function ReplyBody(body: Value, streamsTransfer: bool, drain: nat -> seq<bv8>): (b: Value)
    ensures !streamsTransfer && body.Stream? ==> b == ArrayBuffer(drain(body.stream))
    ensures streamsTransfer || !body.Stream? ==> b == body
    ensures !streamsTransfer ==> !b.Stream?
  {
    if !streamsTransfer && body.Stream? then ArrayBuffer(drain(body.stream)) else body
  }

  /** The `fetch` reply for a transport response, with its transfer list:
      the body is transferred exactly when it is a stream or a buffer. */
  function FetchReplyOf(resp: TransferrableResponse, streamsTransfer: bool, drain: nat -> seq<bv8>)
    : (r: Posted<WorkerResponse>)
    ensures r.message.FetchReply?
    ensures r.message.fetch == resp.(body := ReplyBody(resp.body, streamsTransfer, drain))
    ensures var b := r.message.fetch.body;
      && (b.Stream? || b.ArrayBuffer? ==> r.transfer == [b])
      && (!b.Stream? && !b.ArrayBuffer? ==> r.transfer == [])
    ensures !streamsTransfer ==> !r.message.fetch.body.Stream?
  {
    var body := ReplyBody(resp.body, streamsTransfer, drain);
    var reply := FetchReply(resp.(body := body));
    if body.Stream? || body.ArrayBuffer? then Posted(reply, [body]) else Posted(reply, [])
  }

  /** `handleFetch(message, port, transport)`: one request to the transport
      at the parsed `remote`, with the message's method, body and headers,
      and one reply; a URL that does not parse or a rejected request ends it
      with no reply (the dispatcher replies with the error). */
  method HandleFetch(message: FetchPayload, port: ReplyPort, transport: Transport,
                     parse: string -> Option<Url>, streamsTransfer: bool, drain: nat -> seq<bv8>)
    returns (r: Result<(), Exception>)
    modifies port`posted, transport`requests
    ensures parse(message.remote).None? ==>
      r == Err(FetchRules.InvalidUrl) && port.posted == old(port.posted)
      && transport.requests == old(transport.requests)
    ensures parse(message.remote).Some? ==>
      var req := Request(parse(message.remote).value, message.verb, message.body, message.headers);
      && transport.requests == old(transport.requests) + [req]
      && (transport.respond(req).Err? ==> r == Err(transport.respond(req).error) && port.posted == old(port.posted))
      && (transport.respond(req).Ok? ==>
           r == Ok(()) && port.posted == old(port.posted) + [FetchReplyOf(transport.respond(req).value, streamsTransfer, drain)])
  {
    var url := parse(message.remote);
    if url.None? {
      return Err(FetchRules.InvalidUrl);
    }
    var resp := transport.Request(Request(url.value, message.verb, message.body, message.headers));
    if resp.Err? {
      return Err(resp.error);
    }
    var reply := resp.value;
    if !streamsTransfer && reply.body.Stream? {
      reply := reply.(body := ArrayBuffer(drain(reply.body.stream)));
    }
    if reply.body.Stream? || reply.body.ArrayBuffer? {
      port.Post(FetchReply(reply), [reply.body]);
    } else {
      port.Post(FetchReply(reply), []);
    }
    r := Ok(());
  }

  /** A call a transport makes on the callbacks `connect` gave it. */
  datatype Callback = Opened(protocol: Value) | Messaged(data: Value) | Closed(code: Value, reason: Value) | Errored(error: Value)

  /** The frame each callback posts on the socket's channel; a buffer
      message is transferred. */
  function EncodeCallback(cb: Callback): (f: Posted<Frame>)
    ensures cb.Opened? ==> f.message == Frame("open", [cb.protocol])
    ensures cb.Messaged? ==> f.message == Frame("message", [cb.data])
    ensures cb.Closed? ==> f.message == Frame("close", [cb.code, cb.reason])
    ensures cb.Errored? ==> f.message == Frame("error", [cb.error])
    ensures f.transfer == if cb.Messaged? && cb.data.ArrayBuffer? then [cb.data] else []
  {
    match cb
    case Opened(p) => Posted(Frame("open", [p]), [])
    case Messaged(d) => Posted(Frame("message", [d]), if d.ArrayBuffer? then [d] else [])
    case Closed(c, r) => Posted(Frame("close", [c, r]), [])
    case Errored(e) => Posted(Frame("error", [e]), [])
  }

  /** The client handler each callback is meant to reach. */
  function Intended(cb: Callback): WebSocketProxy.Inbound
  {
    match cb
    case Opened(p) => WebSocketProxy.OnOpen(p)
    case Messaged(d) => WebSocketProxy.OnMessage(d)
    case Closed(c, r) => WebSocketProxy.OnClose(c, r)
    case Errored(_) => WebSocketProxy.OnError
  }

  /** The client's decoder undoes the encoding: each frame reaches the
      handler of its callback with the same arguments in the same order. */
  lemma FrameRoundTrip(cb: Callback)
    ensures WebSocketProxy.DecodeFrame(EncodeCallback(cb).message) == Some(Intended(cb))
  {
  }

  /** So a socket that receives the frame of a callback takes the state the
      callback means, and dispatches the matching event. */
  lemma CallbackEffect(rs: int, cb: Callback)
    ensures WebSocketProxy.ReadyStateAfter(rs, [EncodeCallback(cb).message])
         == WebSocketProxy.NextReadyState(rs, Intended(cb))
    ensures cb.Opened? ==> WebSocketProxy.ReadyStateAfter(rs, [EncodeCallback(cb).message]) == OPEN
    ensures cb.Closed? || cb.Errored? ==> WebSocketProxy.ReadyStateAfter(rs, [EncodeCallback(cb).message]) == CLOSED
    ensures cb.Messaged? ==> WebSocketProxy.ReadyStateAfter(rs, [EncodeCallback(cb).message]) == rs
  {
    var f := EncodeCallback(cb).message;
    assert [f][..0] == [];
    FrameRoundTrip(cb);
  }

  /** The transport call a command from the client's channel becomes:
      `data` sends, `close` closes, anything else is ignored. */
  function DecodeCommand(c: Command): (r: Option<SocketCall>)
    ensures c.kind == "data" ==> r == Some(SendData(c.data))
    ensures c.kind == "close" ==> r == Some(CloseSocket(c.closeCode, c.closeReason))
    ensures r.None? <==> c.kind != "data" && c.kind != "close"
  {
    if c.kind == "data" then Some(SendData(c.data))
    else if c.kind == "close" then Some(CloseSocket(c.closeCode, c.closeReason))
    else None
  }

  /** What the client's `send` and `close` post arrives as the matching call,
      with the code and reason in their places. */
  lemma CommandRoundTrip(data: Value, code: Value, reason: Value)
    ensures DecodeCommand(DataCommand(data)) == Some(SendData(data))
    ensures DecodeCommand(CloseCommand(code, reason)) == Some(CloseSocket(code, reason))
  {
    assert DataCommand(data).kind == "data";
    assert CloseCommand(code, reason).kind == "close";
  }

  /** A socket's channel, on the worker's side. */
  class Channel {
    const id: nat
    var frames: seq<Posted<Frame>>

    constructor (id: nat)
      ensures this.id == id && frames == []
    {
      this.id := id;
      frames := [];
    }

    /** One of the four callbacks: exactly one frame posted. */
    method Emit(cb: Callback)
      modifies this`frames
      ensures frames == old(frames) + [EncodeCallback(cb)]
    {
      match cb
      case Opened(p) =>
        frames := frames + [Posted(Frame("open", [p]), [])];
      case Messaged(d) =>
        if d.ArrayBuffer? {
          frames := frames + [Posted(Frame("message", [d]), [d])];
        } else {
          frames := frames + [Posted(Frame("message", [d]), [])];
        }
      case Closed(c, r) =>
        frames := frames + [Posted(Frame("close", [c, r]), [])];
      case Errored(e) =>
        frames := frames + [Posted(Frame("error", [e]), [])];
    }
  }

  /** The channel's `onmessage`: a command becomes at most one transport call. */
  method OnCommand(transport: Transport, c: Command)
    modifies transport`socketCalls
    ensures DecodeCommand(c).Some? ==> transport.socketCalls == old(transport.socketCalls) + [DecodeCommand(c).value]
    ensures DecodeCommand(c).None? ==> transport.socketCalls == old(transport.socketCalls)
  {
    if c.kind == "data" {
      transport.Call(SendData(c.data));
    } else if c.kind == "close" {
      transport.Call(CloseSocket(c.closeCode, c.closeReason));
    }
  }

  /** `handleWebsocket(message, port, transport)`: one `connect` at the parsed
      URL with the message's origin, subprotocols and headers, then one
      `websocket` reply; a URL that does not parse or a throwing `connect`
      ends it with no reply. */
  method HandleWebsocket(message: WebSocketPayload, port: ReplyPort, transport: Transport,
                         parse: string -> Option<Url>)
    returns (r: Result<(), Exception>)
    modifies port`posted, transport`connects
    ensures parse(message.url).None? ==>
      r == Err(FetchRules.InvalidUrl) && port.posted == old(port.posted)
      && transport.connects == old(transport.connects)
    ensures parse(message.url).Some? ==>
      && transport.connects == old(transport.connects)
         + [ConnectCall(parse(message.url).value, message.origin, message.protocols, message.requestHeaders)]
      && (transport.connectOutcome.Err? ==> r == Err(transport.connectOutcome.error) && port.posted == old(port.posted))
      && (transport.connectOutcome.Ok? ==> r == Ok(()) && port.posted == old(port.posted) + [Posted(WebSocketReply, [])])
  {
    var url := parse(message.url);
    if url.None? {
      return Err(FetchRules.InvalidUrl);
    }
    var connected := transport.Connect(ConnectCall(url.value, message.origin, message.protocols, message.requestHeaders));
    if connected.Err? {
      return Err(connected.error);
    }
    port.Post(WebSocketReply, []);
    r := Ok(());
  }
}
