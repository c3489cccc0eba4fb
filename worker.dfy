/**
 * The shared worker's dispatcher: the module state `currentTransport` and
 * `currentTransportName`, and what each `ping`, `set`, `get`, `fetch` and
 * `websocket` message does to it and posts in reply.
 */
module WorkerDispatch {
  import opened Js
  import opened Wrappers
  import opened Wire
  import opened TransportModel
  import opened WorkerHandlers
  import FetchRules

  /** `currentTransport`: nothing set yet (`null`), the value a remote `set`
      stored (normally a port), or a local transport object. */
  datatype Slot = Empty | Remote(handle: Value) | Local(transport: Transport)

  const RemoteFunction: string := "bare-mux-remote"
  const RemoteNameHead: string := "bare-mux-remote ("
  const RemoteNameTail: string := ")"

  /** `noClients()`. */
  const NoBareClients: Exception := JsError("there are no bare clients")

  /** What calling `init` on a stored value that is not a transport throws. */
  const InitNotCallable: Exception := TypeError("currentTransport.init is not a function")

  /** The name a remote transport is listed under. */
  function RemoteName(tag: Value): (r: string)
    ensures r == RemoteNameHead + ToJsString(tag) + RemoteNameTail
    ensures |r| > |RemoteNameHead| && r[..|RemoteNameHead|] == RemoteNameHead
  {
    var r := RemoteNameHead + ToJsString(tag) + RemoteNameTail;
    assert r[..|RemoteNameHead|] == RemoteNameHead;
    r
  }

  /** A `set` whose `client.function` names the remote transport. */
  predicate IsRemoteSpec(client: ClientSpec)
  {
    client.ClientObject? && client.fn == Str(RemoteFunction)
  }

  /** The slot, the name and the reply after a `set`. */
  datatype SetResult = SetResult(slot: Slot, name: string, reply: WorkerResponse)

  /** A `set` whose `client.function` is `undefined`: a string `client`, which
      has no such property, or an object without one. The factory built from
      it has the body `undefined` and resolves to `undefined`. */
  predicate NoFactoryCode(client: ClientSpec)
  {
    client.ClientText? || client.fn == Undefined
  }

  /** What destructuring `[newTransport, name]` out of `undefined` throws. */
  const NotIterable: Exception := TypeError("undefined is not iterable (cannot read property Symbol(Symbol.iterator))")

  /** `set`: a remote spec stores `args[0]` under a derived name; a spec
      without factory code fails on destructuring the factory's `undefined`;
      any other spec runs the transport factory, whose outcome is given, and
      stores what it builds. A failure changes nothing. */
  function SetOutcome(slot: Slot, name: string, client: ClientSpec,
                      factory: Result<(Transport, string), Exception>): (r: SetResult)
    ensures r.reply == SetReply || r.reply.ErrorReply?
    ensures r.reply.ErrorReply? <==> !IsRemoteSpec(client) && (NoFactoryCode(client) || factory.Err?)
    ensures r.reply.ErrorReply? ==> r.slot == slot && r.name == name
    ensures NoFactoryCode(client) ==> r.reply == ErrorReply(NotIterable)
    ensures !NoFactoryCode(client) && !IsRemoteSpec(client) && factory.Err? ==> r.reply == ErrorReply(factory.error)
    ensures IsRemoteSpec(client) ==>
      r.slot == Remote(Arg(client.args, 0)) && r.name == RemoteName(Arg(client.args, 1))
    ensures !IsRemoteSpec(client) && !NoFactoryCode(client) && factory.Ok? ==>
      r.slot == Local(factory.value.0) && r.name == factory.value.1
  {
    if IsRemoteSpec(client) then
      SetResult(Remote(Arg(client.args, 0)), RemoteName(Arg(client.args, 1)), SetReply)
    else if NoFactoryCode(client) then SetResult(slot, name, ErrorReply(NotIterable))
    else match factory
      case Ok((t, n)) => SetResult(Local(t), n, SetReply)
      case Err(e) => SetResult(slot, name, ErrorReply(e))
  }

  /** `set` is atomic: either both the transport and its name are replaced
      and the reply is `set`, or neither is and the reply is `error`. */
  lemma SetAtomic(slot: Slot, name: string, client: ClientSpec, factory: Result<(Transport, string), Exception>)
    ensures var r := SetOutcome(slot, name, client, factory);
      || (r.reply == SetReply && (IsRemoteSpec(client) || (factory.Ok? && r.slot.Local?)))
      || (r.reply.ErrorReply? && r.slot == slot && r.name == name)
  {
  }

  /** A string `client` never sets a transport: whatever the factory would
      have done, the reply is the destructuring error and nothing changes. */
  lemma SetTextFails(slot: Slot, name: string, text: string, factory: Result<(Transport, string), Exception>)
    ensures SetOutcome(slot, name, ClientText(text), factory) == SetResult(slot, name, ErrorReply(NotIterable))
  {
  }

  /** A `set` carrying factory code and constructor arguments reaches the
      factory: it succeeds exactly when the factory does, and then the built
      transport and its name are current. */
  lemma SetCodeReachesFactory(slot: Slot, name: string, code: string, args: seq<Value>,
                              factory: Result<(Transport, string), Exception>)
    requires code != RemoteFunction
    ensures var r := SetOutcome(slot, name, ClientObject(Str(code), args), factory);
      && (r.reply == SetReply <==> factory.Ok?)
      && (factory.Ok? ==> r.slot == Local(factory.value.0) && r.name == factory.value.1)
      && (factory.Err? ==> r == SetResult(slot, name, ErrorReply(factory.error)))
  {
  }

  /** Where a `fetch` or `websocket` message goes for a given slot. */
  datatype Route = NoClients | ForwardTo(port: nat) | NotCallable | Delegate(transport: Transport)

  function RouteOf(slot: Slot): (r: Route)
    ensures r.NoClients? <==> slot.Empty? || (slot.Remote? && !Truthy(slot.handle))
    ensures r.ForwardTo? <==> slot.Remote? && slot.handle.Port?
    ensures r.ForwardTo? ==> r.port == slot.handle.port
    ensures r.NotCallable? <==> slot.Remote? && Truthy(slot.handle) && !slot.handle.Port?
    ensures r.Delegate? <==> slot.Local?
    ensures r.Delegate? ==> r.transport == slot.transport
  {
    match slot
    case Empty => NoClients
    case Remote(v) => if !Truthy(v) then NoClients else if v.Port? then ForwardTo(v.port) else NotCallable
    case Local(t) => Delegate(t)
  }

  /** A `{message, port}` request forwarded to a remote transport. */
  datatype Forwarded = Forwarded(to: nat, message: WorkerMessage, port: nat, transfer: seq<Value>)

  /** The transfer list of a forwarded request: the reply port, then a
      present fetch body, then a socket's channel. */
  function ForwardTransfer(message: WorkerMessage, port: nat): (t: seq<Value>)
    ensures 1 <= |t| <= 2 && t[0] == Port(port)
    ensures message.FetchMessage? && Truthy(message.fetch.body) ==> t == [Port(port), message.fetch.body]
    ensures message.WebSocketMessage? ==> t == [Port(port), Port(message.websocket.channel)]
    ensures |t| == 2 <==>
      (message.FetchMessage? && Truthy(message.fetch.body)) || message.WebSocketMessage?
  {
    var withBody := if message.FetchMessage? && Truthy(message.fetch.body)
                    then [Port(port), message.fetch.body] else [Port(port)];
    if message.WebSocketMessage? then withBody + [Port(message.websocket.channel)] else withBody
  }

  /** The one reply a local `fetch` ends with: the transport's response, or
      the error that stopped it. */
  function FetchOutcome(respond: Request -> Result<TransferrableResponse, Exception>, message: FetchPayload,
                        parse: string -> Option<Url>, streamsTransfer: bool, drain: nat -> seq<bv8>)
    : (r: Posted<WorkerResponse>)
    ensures r.message.FetchReply? || r.message.ErrorReply?
    ensures r.message.ErrorReply? ==> r.transfer == []
    ensures parse(message.remote).None? ==> r == Posted(ErrorReply(FetchRules.InvalidUrl), [])
  {
    match parse(message.remote)
    case None => Posted(ErrorReply(FetchRules.InvalidUrl), [])
    case Some(url) =>
      match respond(Request(url, message.verb, message.body, message.headers))
      case Err(e) => Posted(ErrorReply(e), [])
      case Ok(resp) => FetchReplyOf(resp, streamsTransfer, drain)
  }

  /** The one reply a local `websocket` ends with. */
  function WebSocketOutcome(connectOutcome: Result<(), Exception>, message: WebSocketPayload,
                            parse: string -> Option<Url>)
    : (r: Posted<WorkerResponse>)
    ensures r.transfer == [] && (r.message == WebSocketReply || r.message.ErrorReply?)
    ensures r.message == WebSocketReply <==> parse(message.url).Some? && connectOutcome.Ok?
  {
    match parse(message.url)
    case None => Posted(ErrorReply(FetchRules.InvalidUrl), [])
    case Some(_) =>
      match connectOutcome
      case Err(e) => Posted(ErrorReply(e), [])
      case Ok(_) => Posted(WebSocketReply, [])
  }

  /** The one reply a local transport gives a `fetch` or `websocket`: the
      error of a failed `init()` when it was not ready, else the handler's. */
  function LocalReply(ready: bool, initOutcome: Result<(), Exception>,
                      respond: Request -> Result<TransferrableResponse, Exception>,
                      connectOutcome: Result<(), Exception>, message: WorkerMessage,
                      parse: string -> Option<Url>, streamsTransfer: bool, drain: nat -> seq<bv8>)
    : (r: Posted<WorkerResponse>)
    requires message.FetchMessage? || message.WebSocketMessage?
    ensures !ready && initOutcome.Err? ==> r == Posted(ErrorReply(initOutcome.error), [])
    ensures (ready || initOutcome.Ok?) && message.FetchMessage? ==>
      r == FetchOutcome(respond, message.fetch, parse, streamsTransfer, drain)
    ensures (ready || initOutcome.Ok?) && message.WebSocketMessage? ==>
      r == WebSocketOutcome(connectOutcome, message.websocket, parse)
  {
    if !ready && initOutcome.Err? then Posted(ErrorReply(initOutcome.error), [])
    else if message.FetchMessage? then FetchOutcome(respond, message.fetch, parse, streamsTransfer, drain)
    else WebSocketOutcome(connectOutcome, message.websocket, parse)
  }

  /** The requests a local transport receives for a served message: one
      for a `fetch` whose URL parses, none otherwise. */
  function ServedRequests(message: WorkerMessage, parse: string -> Option<Url>): (r: seq<Request>)
    ensures |r| <= 1
    ensures r != [] <==> message.FetchMessage? && parse(message.fetch.remote).Some?
    ensures r != [] ==> r[0].url == parse(message.fetch.remote).value && r[0].verb == message.fetch.verb
                        && r[0].body == message.fetch.body && r[0].headers == message.fetch.headers
  {
    if message.FetchMessage? && parse(message.fetch.remote).Some?
    then [Request(parse(message.fetch.remote).value, message.fetch.verb, message.fetch.body, message.fetch.headers)]
    else []
  }

  /** The connections a local transport opens for a served message: one
      for a `websocket` whose URL parses, none otherwise. */
  function ServedConnects(message: WorkerMessage, parse: string -> Option<Url>): (r: seq<ConnectCall>)
    ensures |r| <= 1
    ensures r != [] <==> message.WebSocketMessage? && parse(message.websocket.url).Some?
    ensures r != [] ==> r[0].url == parse(message.websocket.url).value && r[0].origin == message.websocket.origin
                        && r[0].protocols == message.websocket.protocols
                        && r[0].headers == message.websocket.requestHeaders
  {
    if message.WebSocketMessage? && parse(message.websocket.url).Some?
    then [ConnectCall(parse(message.websocket.url).value, message.websocket.origin,
                      message.websocket.protocols, message.websocket.requestHeaders)]
    else []
  }

  /** What serving `message` does to a local transport: `init()` once when
      it was not ready, which makes it ready exactly when `init` succeeds;
      then, if it is ready, the handler's one request or connection. */
  twostate predicate ServedBy(t: Transport, message: WorkerMessage, parse: string -> Option<Url>)
    reads t
  {
    && t.inits == old(t.inits) + (if old(t.ready) then 0 else 1)
    && t.ready == (old(t.ready) || t.initOutcome.Ok?)
    && (if old(t.ready) || t.initOutcome.Ok?
        then t.requests == old(t.requests) + ServedRequests(message, parse)
             && t.connects == old(t.connects) + ServedConnects(message, parse)
        else t.requests == old(t.requests) && t.connects == old(t.connects))
  }

  /** A local transport serving one `fetch` or `websocket`: `init()` exactly
      when it is not ready, then the handler, and one reply either way. */
  method Serve(t: Transport, message: WorkerMessage, port: ReplyPort,
               parse: string -> Option<Url>, streamsTransfer: bool, drain: nat -> seq<bv8>)
    requires message.FetchMessage? || message.WebSocketMessage?
    modifies t`ready, t`inits, t`requests, t`connects, port`posted
    ensures ServedBy(t, message, parse)
    ensures !old(t.ready) && t.initOutcome.Err? ==>
      port.posted == old(port.posted) + [Posted(ErrorReply(t.initOutcome.error), [])]
    ensures (old(t.ready) || t.initOutcome.Ok?) && message.FetchMessage? ==>
      port.posted == old(port.posted) + [FetchOutcome(t.respond, message.fetch, parse, streamsTransfer, drain)]
    ensures (old(t.ready) || t.initOutcome.Ok?) && message.WebSocketMessage? ==>
      port.posted == old(port.posted) + [WebSocketOutcome(t.connectOutcome, message.websocket, parse)]
  {
    if !t.ready {
      var initialised := t.Init();
      if initialised.Err? {
        SendError(port, initialised.error);
        return;
      }
    }
    var handled: Result<(), Exception>;
    if message.FetchMessage? {
      handled := HandleFetch(message.fetch, port, t, parse, streamsTransfer, drain);
    } else {
      handled := HandleWebsocket(message.websocket, port, t, parse);
    }
    if handled.Err? {
      SendError(port, handled.error);
    }
  }

  /** The worker's module state. */
  class Worker {
    var current: Slot
    var name: string
    /** Requests forwarded to remote transports, in order. */
    var forwarded: seq<Forwarded>

    constructor ()
      ensures current == Empty && name == "" && forwarded == []
    {
      current := Empty;
      name := "";
      forwarded := [];
    }

    /** The `set` branch. */
    method HandleSet(client: ClientSpec, port: ReplyPort, factory: Result<(Transport, string), Exception>)
      modifies this`current, this`name, port`posted
      ensures var s := SetOutcome(old(current), old(name), client, factory);
        && current == s.slot && name == s.name
        && port.posted == old(port.posted) + [Posted(s.reply, [])]
    {
      if client.ClientObject? && client.fn == Str(RemoteFunction) {
        current := Remote(Arg(client.args, 0));
        name := RemoteNameHead + ToJsString(Arg(client.args, 1)) + RemoteNameTail;
      } else if client.ClientText? || client.fn == Undefined {
        SendError(port, NotIterable);
        return;
      } else {
        if factory.Err? {
          SendError(port, factory.error);
          return;
        }
        current := Local(factory.value.0);
        name := factory.value.1;
      }
      port.Post(SetReply, []);
    }

    /** The `fetch` and `websocket` branches. */
    method Dispatch(message: WorkerMessage, port: ReplyPort,
                 parse: string -> Option<Url>, streamsTransfer: bool, drain: nat -> seq<bv8>)
      requires message.FetchMessage? || message.WebSocketMessage?
      modifies this`forwarded, port`posted
      modifies (if current.Local? then {current.transport} else {})`ready
      modifies (if current.Local? then {current.transport} else {})`inits
      modifies (if current.Local? then {current.transport} else {})`requests
      modifies (if current.Local? then {current.transport} else {})`connects
      ensures RouteOf(current).NoClients? ==>
        port.posted == old(port.posted) + [Posted(ErrorReply(NoBareClients), [])] && forwarded == old(forwarded)
      ensures RouteOf(current).NotCallable? ==>
        port.posted == old(port.posted) + [Posted(ErrorReply(InitNotCallable), [])] && forwarded == old(forwarded)
      ensures RouteOf(current).ForwardTo? ==>
        && forwarded == old(forwarded)
           + [Forwarded(RouteOf(current).port, message, port.id, ForwardTransfer(message, port.id))]
        && port.posted == old(port.posted)
      ensures RouteOf(current).Delegate? ==>
        && forwarded == old(forwarded)
        && ServedBy(current.transport, message, parse)
        && port.posted == old(port.posted)
           + [LocalReply(old(current.transport.ready), current.transport.initOutcome, current.transport.respond,
                         current.transport.connectOutcome, message, parse, streamsTransfer, drain)]
    {
      match current
      case Empty =>
        SendError(port, NoBareClients);
      case Remote(v) =>
        if !Truthy(v) {
          SendError(port, NoBareClients);
        } else if v.Port? {
          var transfer := [Port(port.id)];
          if message.FetchMessage? && Truthy(message.fetch.body) {
            transfer := transfer + [message.fetch.body];
          }
          if message.WebSocketMessage? {
            transfer := transfer + [Port(message.websocket.channel)];
          }
          assert transfer == ForwardTransfer(message, port.id);
          forwarded := forwarded + [Forwarded(v.port, message, port.id, transfer)];
        } else {
          SendError(port, InitNotCallable);
        }
      case Local(t) =>
        Serve(t, message, port, parse, streamsTransfer, drain);
    }

    /** `port.onmessage`: one message, and exactly one reply posted on its
        port or one request forwarded to a remote transport. */
    method HandleMessage(message: WorkerMessage, port: ReplyPort,
                         factory: Result<(Transport, string), Exception>,
                         parse: string -> Option<Url>, streamsTransfer: bool, drain: nat -> seq<bv8>)
      modifies this`current, this`name, this`forwarded, port`posted
      modifies (if current.Local? && (message.FetchMessage? || message.WebSocketMessage?)
                then {current.transport} else {})`ready
      modifies (if current.Local? && (message.FetchMessage? || message.WebSocketMessage?)
                then {current.transport} else {})`inits
      modifies (if current.Local? && (message.FetchMessage? || message.WebSocketMessage?)
                then {current.transport} else {})`requests
      modifies (if current.Local? && (message.FetchMessage? || message.WebSocketMessage?)
                then {current.transport} else {})`connects
      ensures || (&& |port.posted| == |old(port.posted)| + 1
                  && port.posted[..|old(port.posted)|] == old(port.posted)
                  && forwarded == old(forwarded))
              || (&& port.posted == old(port.posted)
                  && |forwarded| == |old(forwarded)| + 1
                  && forwarded[..|old(forwarded)|] == old(forwarded))
      ensures message.Ping? ==>
        port.posted == old(port.posted) + [Posted(Pong, [])] && current == old(current) && name == old(name)
      ensures message.Get? ==>
        port.posted == old(port.posted) + [Posted(GetReply(old(name)), [])]
        && current == old(current) && name == old(name)
      ensures message.Set? ==>
        var s := SetOutcome(old(current), old(name), message.client, factory);
        && current == s.slot && name == s.name && port.posted == old(port.posted) + [Posted(s.reply, [])]
      ensures message.FetchMessage? || message.WebSocketMessage? ==> current == old(current) && name == old(name)
      ensures (message.FetchMessage? || message.WebSocketMessage?) && RouteOf(old(current)).NoClients? ==>
        port.posted == old(port.posted) + [Posted(ErrorReply(NoBareClients), [])]
      ensures (message.FetchMessage? || message.WebSocketMessage?) && RouteOf(old(current)).NotCallable? ==>
        port.posted == old(port.posted) + [Posted(ErrorReply(InitNotCallable), [])]
      ensures (message.FetchMessage? || message.WebSocketMessage?) && RouteOf(old(current)).Delegate? ==>
        var t := old(current).transport;
        && forwarded == old(forwarded)
        && ServedBy(t, message, parse)
        && port.posted == old(port.posted)
           + [LocalReply(old(t.ready), t.initOutcome, t.respond, t.connectOutcome, message, parse, streamsTransfer, drain)]
      ensures (message.FetchMessage? || message.WebSocketMessage?) && RouteOf(old(current)).ForwardTo? ==>
        && forwarded == old(forwarded)
           + [Forwarded(RouteOf(old(current)).port, message, port.id, ForwardTransfer(message, port.id))]
        && port.posted == old(port.posted)
    {
      match message
      case Ping =>
        port.Post(Pong, []);
      case Get =>
        port.Post(GetReply(name), []);
      case Set(client) =>
        HandleSet(client, port, factory);
      case FetchMessage(_) =>
        Dispatch(message, port, parse, streamsTransfer, drain);
      case WebSocketMessage(_) =>
        Dispatch(message, port, parse, streamsTransfer, drain);
    }
  }
}
