/**
 * The direct client, `BareClient` of src/BareClient.ts: it finds the active
 * transport in the registry and calls it in the same context.
 * `CreateWebSocket` validates its arguments, writes the upgrade headers into
 * the caller's record and returns a stand-in socket whose readyState and
 * protocol the transport's callbacks drive; `Fetch` runs the redirect loop
 * of `FetchRules` against the transport.
 */
module DirectClient {
  import opened Js
  import opened Wrappers
  import opened Wire
  import opened TransportModel
  import opened Registry
  import opened FetchRules
  import opened SubprotocolToken
  import WebSocketProxy

  const WsProtocols: seq<string> := ["ws:", "wss:"]

  const InvalidSwitcher: Exception := Thrown(Str("invalid switcher"))
  const NotReady: Exception := TypeError(
    "You need to wait for the client to finish fetching the manifest before creating any WebSockets. "
    + "Try caching the manifest data before making this request.")
  const NoBareClients: Exception := Thrown(Str("there are no bare clients"))

  const InvalidUrlHead: string := "Faiiled to construct 'WebSocket': The URL '"
  const InvalidUrlTail: string := "' is invalid."
  const BadSchemeHead: string :=
    "Failed to construct 'WebSocket': The URL's scheme must be either 'ws' or 'wss'. '"
  const BadSchemeTail: string := "' is not allowed."
  const BadSubprotocolHead: string := "Failed to construct 'WebSocket': The subprotocol '"
  const BadSubprotocolTail: string := "' is invalid."

  function InvalidUrlError(remote: string): Exception
  {
    DOMException(InvalidUrlHead + remote + InvalidUrlTail)
  }

  function BadSchemeError(scheme: string): Exception
  {
    DOMException(BadSchemeHead + scheme + BadSchemeTail)
  }

  function BadSubprotocolError(proto: string): Exception
  {
    DOMException(BadSubprotocolHead + proto + BadSubprotocolTail)
  }

  const DuplicatedTail: string := "' is duplicated."

  /** What the host's `WebSocket` constructor throws for the empty subprotocol,
      which the token check lets through. */
  const EmptySubprotocolError: Exception := SyntaxError(BadSubprotocolHead + BadSubprotocolTail)

  /** What the host's `WebSocket` constructor throws for a repeated subprotocol. */
  function DuplicatedError(proto: string): Exception
  {
    SyntaxError(BadSubprotocolHead + proto + DuplicatedTail)
  }

  /** No entry occurs twice. */
  predicate Distinct(protos: seq<string>)
  {
    forall i, j :: 0 <= i < j < |protos| ==> protos[i] != protos[j]
  }

  /** The index of the first entry that repeats an earlier one. */
  function FirstRepeat(protos: seq<string>): (r: Option<nat>)
    ensures r.None? <==> Distinct(protos)
    ensures r.Some? ==> && r.value < |protos| && protos[r.value] in protos[..r.value]
                        && Distinct(protos[..r.value])
    decreases |protos|
  {
    if protos == [] then None
    else
      var init := protos[..|protos| - 1];
      assert forall k :: 0 <= k < |init| ==> init[k] == protos[k];
      match FirstRepeat(init)
      case Some(k) =>
        assert protos[..k] == init[..k];
        Some(k)
      case None => if protos[|protos| - 1] in init then Some(|protos| - 1) else None
  }

  /** The host constructor's own subprotocol check, made when the stand-in's
      dummy socket is built: the empty name is invalid, then the first
      repeated name is refused. */
  function NativeCheck(protos: seq<string>): (r: Option<Exception>)
    ensures r.None? <==> "" !in protos && Distinct(protos)
    ensures "" in protos ==> r == Some(EmptySubprotocolError)
    ensures "" !in protos && !Distinct(protos) ==> r == Some(DuplicatedError(protos[FirstRepeat(protos).value]))
  {
    if "" in protos then Some(EmptySubprotocolError)
    else match FirstRepeat(protos)
      case Some(k) => Some(DuplicatedError(protos[k]))
      case None => None
  }

  /** The subprotocol list `createWebSocket` works with: `undefined` takes the
      default `[]`, a single value becomes a one-element list, and every
      entry goes through `String`. */
  function NormalizeProtocols(p: Protocols): (r: seq<string>)
    ensures p == Single(Undefined) ==> r == []
    ensures p.Single? && p.v != Undefined ==> r == [ToJsString(p.v)]
    ensures p.List? ==> |r| == |p.items| && forall k :: 0 <= k < |r| ==> r[k] == ToJsString(p.items[k])
  {
    match p
    case Single(v) => if v == Undefined then [] else [ToJsString(v)]
    case List(items) => seq(|items|, k requires 0 <= k < |items| => ToJsString(items[k]))
  }

  /** A byte view given as a subprotocol passes the token check exactly
      when it holds at most one byte: `String` joins two or more with a
      comma, which is not a token character. */
  lemma ViewProtocolValid(v: Value)
    requires v.TypedView?
    ensures Valid(ToJsString(v)) <==> |SliceBytes(v.backing, v.byteOffset, v.byteOffset + v.byteLength)| <= 1
  {
    var bytes := SliceBytes(v.backing, v.byteOffset, v.byteOffset + v.byteLength);
    var s := JoinDecimal(bytes);
    assert ToJsString(v) == s;
    JoinDecimalCommas(bytes);
    ValidIffEveryChar(s);
    if |bytes| <= 1 {
      forall i | 0 <= i < |s|
        ensures s[i] in ValidChars
      {
        DigitIsToken(s[i]);
      }
    } else {
      var i :| 0 <= i < |s| && s[i] == ',';
      CommaIsNotToken();
    }
  }

  lemma DigitIsToken(c: char)
    requires '0' <= c <= '9'
    ensures c in ValidChars
  {
    TcharMembership(c);
  }

  lemma CommaIsNotToken()
    ensures ',' !in ValidChars
  {
    TcharMembership(',');
  }

  /** The index of the first entry that fails the token check. */
  function FirstInvalid(protos: seq<string>): (r: Option<nat>)
    ensures r.None? <==> forall k :: 0 <= k < |protos| ==> Valid(protos[k])
    ensures r.Some? ==> (r.value < |protos| && !Valid(protos[r.value])
                         && forall k :: 0 <= k < r.value ==> Valid(protos[k]))
    decreases |protos|
  {
    if protos == [] then None
    else if !Valid(protos[0]) then Some(0)
    else match FirstInvalid(protos[1..])
      case None => None
      case Some(k) => Some(k + 1)
  }

  /** The `for (const proto of protocols)` check: the first invalid entry, if any. */
  method FindInvalidProtocol(protos: seq<string>) returns (bad: Option<string>)
    ensures bad.None? <==> FirstInvalid(protos).None?
    ensures bad.Some? ==> bad.value == protos[FirstInvalid(protos).value]
  {
    var k := 0;
    while k < |protos|
      invariant 0 <= k <= |protos|
      invariant forall j :: 0 <= j < k ==> Valid(protos[j])
    {
      var ok := ValidProtocol(protos[k]);
      if !ok {
        FirstInvalidIs(protos, k);
        return Some(protos[k]);
      }
      k := k + 1;
    }
    return None;
  }

  /** The loop's stopping point is the index `FirstInvalid` names. */
  lemma {:induction false} FirstInvalidIs(protos: seq<string>, k: nat)
    requires k < |protos| && !Valid(protos[k])
    requires forall j :: 0 <= j < k ==> Valid(protos[j])
    ensures FirstInvalid(protos) == Some(k)
    decreases k
  {
    if k > 0 {
      assert Valid(protos[0]);
      var tail := protos[1..];
      assert forall j :: 0 <= j < k - 1 ==> tail[j] == protos[j + 1];
      FirstInvalidIs(tail, k - 1);
    }
  }

  /** What `createWebSocket` has checked before building anything: the URL
      and the normalised subprotocol list. */
  datatype Checked = Checked(url: Url, protocols: seq<string>)

  /** The argument checks of `createWebSocket`, in the order it makes them. */
  function CheckWebSocketArgs(hasActive: bool, ready: bool, remote: string,
                              parse: string -> Option<Url>, protocols: Protocols): (r: Result<Checked, Exception>)
    ensures !hasActive ==> r == Err(InvalidSwitcher)
    ensures hasActive && !ready ==> r == Err(NotReady)
    ensures hasActive && ready && parse(remote).None? ==> r == Err(InvalidUrlError(remote))
    ensures hasActive && ready && parse(remote).Some? && parse(remote).value.protocol !in WsProtocols ==>
      r == Err(BadSchemeError(parse(remote).value.protocol))
    ensures hasActive && ready && parse(remote).Some? && parse(remote).value.protocol in WsProtocols
            && FirstInvalid(NormalizeProtocols(protocols)).Some? ==>
      r == Err(BadSubprotocolError(NormalizeProtocols(protocols)[FirstInvalid(NormalizeProtocols(protocols)).value]))
    ensures hasActive && ready && parse(remote).Some? && parse(remote).value.protocol in WsProtocols
            && FirstInvalid(NormalizeProtocols(protocols)).None? && NativeCheck(NormalizeProtocols(protocols)).Some? ==>
      r == Err(NativeCheck(NormalizeProtocols(protocols)).value)
    ensures r.Ok? <==>
      && hasActive && ready && parse(remote).Some? && parse(remote).value.protocol in WsProtocols
      && (forall k :: 0 <= k < |NormalizeProtocols(protocols)| ==> Valid(NormalizeProtocols(protocols)[k]))
      && "" !in NormalizeProtocols(protocols) && Distinct(NormalizeProtocols(protocols))
    ensures r.Ok? ==> r.value == Checked(parse(remote).value, NormalizeProtocols(protocols))
  {
    if !hasActive then Err(InvalidSwitcher)
    else if !ready then Err(NotReady)
    else match parse(remote)
      case None => Err(InvalidUrlError(remote))
      case Some(url) =>
        if url.protocol !in WsProtocols then Err(BadSchemeError(url.protocol))
        else
          var protos := NormalizeProtocols(protocols);
          match FirstInvalid(protos)
          case Some(k) => Err(BadSubprotocolError(protos[k]))
          case None =>
            match NativeCheck(protos)
            case Some(e) => Err(e)
            case None => Ok(Checked(url, protos))
  }

  const UpgradeKeys: set<string> := {"Host", "Pragma", "Cache-Control", "Upgrade", "Connection"}

  /** The caller's request headers after `createWebSocket` has written the
      five upgrade headers. */
  function UpgradeHeaders(h: Headers, host: string): (r: Headers)
    ensures r.Keys == h.Keys + UpgradeKeys
    ensures r["Host"] == host && r["Pragma"] == "no-cache" && r["Cache-Control"] == "no-cache"
    ensures r["Upgrade"] == "websocket" && r["Connection"] == "Upgrade"
    ensures forall k :: k in h && k !in UpgradeKeys ==> r[k] == h[k]
  {
    h["Host" := host]["Pragma" := "no-cache"]["Cache-Control" := "no-cache"]
     ["Upgrade" := "websocket"]["Connection" := "Upgrade"]
  }

  /** The `data` of the message event the stand-in dispatches for a payload
      under the dummy socket's `binaryType`: as `BareWebSocket` does for a
      string, a buffer or view, or a blob; nothing for any other payload,
      where the callback throws or falls through every branch. */
  function FakeMessageData(payload: Value, binaryType: string): (r: Option<Value>)
    ensures r.Some? <==> payload.Str? || HasByteLength(payload) || payload.Blob?
    ensures r.Some? ==> r == WebSocketProxy.MessageData(payload, binaryType)
  {
    if payload.Str? || HasByteLength(payload) || payload.Blob? then WebSocketProxy.MessageData(payload, binaryType)
    else None
  }

  /** The socket `createWebSocket` returns: the host's socket to the dummy
      address `ws://127.0.0.1:1`, with the closed-over `fakeReadyState`,
      `fakeProtocol` and the two "initial event happened" flags as fields,
      the four callbacks it hands the transport as methods, and the two
      listeners it puts on the dummy's own `error` and `close` events. */
  class FakeSocket {
    const url: string
    const transport: Transport
    var readyState: int
    var protocol: string
    var meta: Option<Value>
    /** The dummy socket's `binaryType`: `"blob"` at first. */
    var binaryType: string
    var initialErrorHappened: bool
    var initialCloseHappened: bool
    /** Events the page's listeners receive, in order. */
    var events: seq<WebSocketProxy.Event>

    ghost predicate Valid()
      reads this
    {
      IsReadyState(readyState)
    }

    constructor (url: string, transport: Transport)
      ensures Valid() && this.url == url && this.transport == transport
      ensures readyState == CONNECTING && protocol == "" && meta == None && events == []
      ensures binaryType == "blob" && !initialErrorHappened && !initialCloseHappened
    {
      this.url := url;
      this.transport := transport;
      readyState := CONNECTING;
      protocol := "";
      meta := None;
      binaryType := "blob";
      initialErrorHappened := false;
      initialCloseHappened := false;
      events := [];
    }

    method OnOpen(protocol: string)
      modifies this`readyState, this`protocol, this`meta, this`events
      ensures Valid() && readyState == OPEN && this.protocol == protocol
      ensures meta == Some(Str(protocol)) && events == old(events) + [WebSocketProxy.OpenEvent]
    {
      readyState := OPEN;
      this.protocol := protocol;
      meta := Some(Str(protocol));
      events := events + [WebSocketProxy.OpenEvent];
    }

    /** A message event for a string, a buffer or view, or a blob, converted
        as `binaryType` says; any other payload dispatches nothing. */
    method OnMessage(payload: Value)
      modifies this`events
      ensures FakeMessageData(payload, binaryType).Some? ==>
        events == old(events) + [WebSocketProxy.MessageEvent(FakeMessageData(payload, binaryType).value)]
      ensures FakeMessageData(payload, binaryType).None? ==> events == old(events)
    {
      var data := FakeMessageData(payload, binaryType);
      if data.Some? {
        events := events + [WebSocketProxy.MessageEvent(data.value)];
      }
    }

    /** The transport's close callback: the fake readyState becomes CLOSED
        and a `close` event is dispatched on the dummy socket, where it meets
        the same listener as the dummy's own close. Whichever close comes
        first is stopped there; only a later one reaches the page. */
    method OnClose(code: Value, reason: Value)
      modifies this`readyState, this`initialCloseHappened, this`events
      ensures Valid() && readyState == CLOSED && initialCloseHappened
      ensures !old(initialCloseHappened) ==> events == old(events)
      ensures old(initialCloseHappened) ==> events == old(events) + [WebSocketProxy.CloseEvent(code, reason)]
    {
      readyState := CLOSED;
      OnDummyClose(code, reason);
    }

    /** The error callback closes the socket and dispatches nothing. */
    method OnError()
      modifies this`readyState
      ensures Valid() && readyState == CLOSED
    {
      readyState := CLOSED;
    }

    /** The dummy socket's own `error` event. The first one, which its failed
        connection to port 1 produces, sets the fake readyState back to
        CONNECTING, whatever the transport made it, and is kept from the
        page; any later one reaches the page and changes nothing. */
    method OnDummyError()
      requires Valid()
      modifies this`readyState, this`initialErrorHappened, this`events
      ensures Valid() && initialErrorHappened
      ensures !old(initialErrorHappened) ==> readyState == CONNECTING && events == old(events)
      ensures old(initialErrorHappened) ==>
        readyState == old(readyState) && events == old(events) + [WebSocketProxy.ErrorEvent]
    {
      if !initialErrorHappened {
        readyState := CONNECTING;
        initialErrorHappened := true;
      } else {
        events := events + [WebSocketProxy.ErrorEvent];
      }
    }

    /** A `close` event on the dummy socket, its own or one the transport's
        callback dispatches, passing the shared listener: the first one is
        kept from the page and any later one reaches it. The listener leaves
        the fake readyState alone. */
    method OnDummyClose(code: Value, reason: Value)
      modifies this`initialCloseHappened, this`events
      ensures initialCloseHappened
      ensures !old(initialCloseHappened) ==> events == old(events)
      ensures old(initialCloseHappened) ==> events == old(events) + [WebSocketProxy.CloseEvent(code, reason)]
    {
      if !initialCloseHappened {
        initialCloseHappened := true;
      } else {
        events := events + [WebSocketProxy.CloseEvent(code, reason)];
      }
    }

    /** The replaced `send(...args)`: refused while CONNECTING, otherwise
        exactly its first argument goes to the transport's `sendData`. */
    method Send(args: seq<Value>) returns (r: Result<(), Exception>)
      modifies transport`socketCalls
      ensures readyState == CONNECTING ==>
        r == Err(WebSocketProxy.StillConnectingError) && transport.socketCalls == old(transport.socketCalls)
      ensures readyState != CONNECTING ==>
        r == Ok(()) && transport.socketCalls == old(transport.socketCalls) + [SendData(Arg(args, 0))]
    {
      if readyState == CONNECTING {
        return Err(WebSocketProxy.StillConnectingError);
      }
      transport.Call(SendData(Arg(args, 0)));
      r := Ok(());
    }
  }

  /** The subprotocols as the transport's `connect` receives them. */
  function AsList(protos: seq<string>): (r: Protocols)
    ensures r.List? && |r.items| == |protos|
    ensures forall k :: 0 <= k < |protos| ==> r.items[k] == Str(protos[k])
  {
    List(seq(|protos|, k requires 0 <= k < |protos| => Str(protos[k])))
  }

  /** The checks at the head of `createWebSocket`, made in order. */
  method CheckArgs(switcher: Switcher, remote: string, protocols: Protocols, parse: string -> Option<Url>)
    returns (r: Result<Checked, Exception>)
    ensures r == CheckWebSocketArgs(switcher.active.Some?, switcher.active.Some? && switcher.active.value.ready,
                                    remote, parse, protocols)
  {
    if switcher.active.None? {
      return Err(InvalidSwitcher);
    }
    if !switcher.active.value.ready {
      return Err(NotReady);
    }
    var parsed := parse(remote);
    if parsed.None? {
      return Err(InvalidUrlError(remote));
    }
    var url := parsed.value;
    if url.protocol !in WsProtocols {
      return Err(BadSchemeError(url.protocol));
    }
    var protos := NormalizeProtocols(protocols);
    var bad := FindInvalidProtocol(protos);
    if bad.Some? {
      return Err(BadSubprotocolError(bad.value));
    }
    var refused := NativeCheck(protos);
    if refused.Some? {
      return Err(refused.value);
    }
    r := Ok(Checked(url, protos));
  }

  /** `createWebSocket(remote, protocols, ..., requestHeaders)`, given how
      `findSwitcher()` came out. Fails, with nothing written and nothing
      connected, when the lookup throws or `CheckWebSocketArgs` fails. */
  method CreateWebSocket(found: Result<Switcher, Exception>, remote: string, protocols: Protocols, origin: string,
                         requestHeaders: HeaderRecord, parse: string -> Option<Url>)
    returns (r: Result<FakeSocket, Exception>)
    modifies requestHeaders, (if found.Ok? && found.value.active.Some? then {found.value.active.value} else {})`connects
    ensures found.Err? ==> r == Err(found.error) && unchanged(requestHeaders)
    ensures found.Ok? ==>
      var switcher := found.value;
      var check := CheckWebSocketArgs(switcher.active.Some?,
                                      switcher.active.Some? && old(switcher.active.value.ready),
                                      remote, parse, protocols);
      && (check.Err? ==> r == Err(check.error) && unchanged(requestHeaders)
                         && (switcher.active.Some? ==> switcher.active.value.connects == old(switcher.active.value.connects)))
      && (check.Ok? ==>
        var t := switcher.active.value;
        && requestHeaders.fields == UpgradeHeaders(old(requestHeaders.fields), check.value.url.host)
        && t.connects == old(t.connects)
                         + [ConnectCall(check.value.url, origin, AsList(check.value.protocols), requestHeaders.fields)]
        && (t.connectOutcome.Err? ==> r == Err(t.connectOutcome.error))
        && (t.connectOutcome.Ok? ==>
             && r.Ok? && fresh(r.value) && r.value.transport == t
             && r.value.url == check.value.url.href
             && r.value.readyState == CONNECTING && r.value.protocol == "" && r.value.meta == None
             && r.value.binaryType == "blob" && r.value.events == []
             && !r.value.initialErrorHappened && !r.value.initialCloseHappened))
  {
    if found.Err? {
      return Err(found.error);
    }
    var switcher := found.value;
    var checked := CheckArgs(switcher, remote, protocols, parse);
    if checked.Err? {
      return Err(checked.error);
    }
    var client := switcher.active.value;
    var url := checked.value.url;
    requestHeaders.fields := requestHeaders.fields["Host" := url.host];
    requestHeaders.fields := requestHeaders.fields["Pragma" := "no-cache"];
    requestHeaders.fields := requestHeaders.fields["Cache-Control" := "no-cache"];
    requestHeaders.fields := requestHeaders.fields["Upgrade" := "websocket"];
    requestHeaders.fields := requestHeaders.fields["Connection" := "Upgrade"];
    var connected := client.Connect(ConnectCall(url, origin, AsList(checked.value.protocols), requestHeaders.fields));
    if connected.Err? {
      return Err(connected.error);
    }
    var socket := new FakeSocket(url.href, client);
    r := Ok(socket);
  }

  /** How each hop reaches the transport: `request(url, method, body, headers)`. */
  function DirectSender(respond: Request -> Result<TransferrableResponse, Exception>,
                        verb: string, body: Value): Sender
  {
    (u: Url, h: Headers) => respond(Request(u, verb, body, h))
  }

  /** The requests the transport receives for `hops`, one per hop, in order. */
  function RequestsOf(hops: seq<Hop>, verb: string, body: Value): (r: seq<Request>)
    ensures |r| == |hops|
  {
    if hops == [] then []
    else RequestsOf(hops[..|hops| - 1], verb, body)
         + [Request(hops[|hops| - 1].url, verb, body, hops[|hops| - 1].headers)]
  }

  lemma RequestsOfSnoc(hops: seq<Hop>, hop: Hop, verb: string, body: Value)
    ensures RequestsOf(hops + [hop], verb, body)
         == RequestsOf(hops, verb, body) + [Request(hop.url, verb, body, hop.headers)]
  {
    assert (hops + [hop])[..|hops|] == hops;
  }

  /** Request `k` went to hop `k`'s URL with hop `k`'s header record. */
  lemma {:induction false} RequestsOfIndex(hops: seq<Hop>, verb: string, body: Value, k: nat)
    requires k < |hops|
    ensures RequestsOf(hops, verb, body)[k] == Request(hops[k].url, verb, body, hops[k].headers)
    decreases |hops|
  {
    if k < |hops| - 1 {
      RequestsOfIndex(hops[..|hops| - 1], verb, body, k);
    }
  }

  /** One pass of the redirect loop of `fetch`: write the host header, send
      the request, and decide from its outcome. */
  method Attempt(client: Transport, current: Url, verb: string, body: Value,
                 headers: HeaderRecord, p: Policy, i: nat)
    returns (step: Step)
    modifies headers, client`requests
    ensures headers.fields == WithHost(old(headers.fields), current.host)
    ensures client.requests == old(client.requests) + [Request(current, verb, body, headers.fields)]
    ensures step == StepOf(p, DirectSender(client.respond, verb, body)(current, headers.fields), current, i)
  {
    var fields := headers.fields;
    if "host" in fields {
      fields := fields["host" := current.host];
    } else {
      fields := fields["Host" := current.host];
    }
    headers.fields := fields;
    var resp := client.Request(Request(current, verb, body, fields));
    step := Judge(resp, current, p, i);
  }

  /** The redirect loop of `fetch`, once a ready transport is in hand: the
      result, the header record and the requests are those of `Chain`. */
  method FollowRedirects(client: Transport, url: Url, verb: string, body: Value,
                         headers: HeaderRecord, p: Policy)
    returns (r: Result<BareResponse, Exception>)
    modifies headers, client`requests
    ensures var run := Chain(DirectSender(client.respond, verb, body), p, url, old(headers.fields), 0);
      && r == run.result
      && headers.fields == run.headers
      && client.requests == old(client.requests) + RequestsOf(run.hops, verb, body)
  {
    ghost var send := DirectSender(client.respond, verb, body);
    ghost var whole := Chain(send, p, url, headers.fields, 0);
    ghost var done: seq<Hop> := [];
    ghost var start := client.requests;
    ghost var reqs: seq<Request> := [];
    var current := url;
    var i := 0;
    while true
      invariant 0 <= i <= MaxRedirects
      invariant whole == After(done, Chain(send, p, current, headers.fields, i))
      invariant client.requests == start + reqs
      invariant reqs == RequestsOf(done, verb, body)
      decreases MaxRedirects - i
    {
      ghost var before := headers.fields;
      ghost var prior := client.requests;
      var step := Attempt(client, current, verb, body, headers, p, i);
      ghost var hop := Hop(current, headers.fields, send(current, headers.fields));
      RequestsOfSnoc(done, hop, verb, body);
      SnocAssoc(start, reqs, Request(current, verb, body, headers.fields));
      reqs := reqs + [Request(current, verb, body, headers.fields)];
      if !step.Redirect? {
        LoopStops(send, p, whole, done, current, before, i);
        return Finish(step);
      }
      LoopContinues(send, p, whole, done, current, before, i);
      done := done + [hop];
      current := step.next;
      i := i + 1;
    }
  }

  /** The body every hop sends: the caller's `init.body` when it is truthy,
      the parsed request's `body` otherwise. */
  function DirectBody(initBody: Value, reqBody: Value): (r: Value)
    ensures Truthy(initBody) ==> r == initBody
    ensures !Truthy(initBody) ==> r == reqBody
  {
    if Truthy(initBody) then initBody else reqBody
  }

  /** The transport `fetch` settles on: the active one of the first
      `findSwitcher()`, or else, after the one-second wait, of the second. */
  function Chosen(found: Result<Switcher, Exception>, retry: Result<Switcher, Exception>): (r: Result<Transport, Exception>)
    reads if found.Ok? then {found.value} else {}, if retry.Ok? then {retry.value} else {}
    ensures r.Ok? <==> found.Ok? && (found.value.active.Some? || (retry.Ok? && retry.value.active.Some?))
    ensures found.Ok? && found.value.active.Some? ==> r == Ok(found.value.active.value)
    ensures found.Err? ==> r == Err(found.error)
    ensures found.Ok? && found.value.active.None? && retry.Err? ==> r == Err(retry.error)
    ensures found.Ok? && found.value.active.None? && retry.Ok? && retry.value.active.None? ==> r == Err(NoBareClients)
  {
    if found.Err? then Err(found.error)
    else if found.value.active.Some? then Ok(found.value.active.value)
    else if retry.Err? then Err(retry.error)
    else if retry.value.active.Some? then Ok(retry.value.active.value)
    else Err(NoBareClients)
  }

  /** `fetch(url, init)`. `prepared` is how `new Request(url, init)` and
      `new URL(req.url)` came out; `found` and `retry` are the two
      `findSwitcher()` lookups. `blob:` URLs go to the host's own `fetch`;
      anything else needs a transport, initialised on first use, and then
      runs the redirect loop against it. */
  method Fetch(prepared: Result<Url, Exception>, initBody: Value, reqBody: Value, verb: string,
               headers: HeaderRecord, p: Policy, native: Url -> Result<BareResponse, Exception>,
               found: Result<Switcher, Exception>, retry: Result<Switcher, Exception>)
    returns (r: Result<BareResponse, Exception>)
    modifies headers
    modifies (if Chosen(found, retry).Ok? then {Chosen(found, retry).value} else {})`ready
    modifies (if Chosen(found, retry).Ok? then {Chosen(found, retry).value} else {})`inits
    modifies (if Chosen(found, retry).Ok? then {Chosen(found, retry).value} else {})`requests
    ensures prepared.Err? ==> r == Err(prepared.error) && unchanged(headers)
    ensures prepared.Ok? && IsBlob(prepared.value) ==> r == native(prepared.value) && unchanged(headers)
    ensures (prepared.Err? || IsBlob(prepared.value)) && old(Chosen(found, retry)).Ok? ==>
      unchanged(old(Chosen(found, retry)).value)
    ensures prepared.Ok? && !IsBlob(prepared.value) && old(Chosen(found, retry)).Err? ==>
      r == Err(old(Chosen(found, retry)).error) && unchanged(headers)
    ensures prepared.Ok? && !IsBlob(prepared.value) && old(Chosen(found, retry)).Ok? ==>
      var t := old(Chosen(found, retry)).value;
      && t.inits == old(t.inits) + (if old(t.ready) then 0 else 1)
      && t.ready == (old(t.ready) || t.initOutcome.Ok?)
      && (!old(t.ready) && t.initOutcome.Err? ==>
            r == Err(t.initOutcome.error) && unchanged(headers) && t.requests == old(t.requests))
      && (old(t.ready) || t.initOutcome.Ok? ==>
            var run := Chain(DirectSender(t.respond, verb, DirectBody(initBody, reqBody)), p,
                             prepared.value, old(headers.fields), 0);
            && r == run.result
            && headers.fields == run.headers
            && t.requests == old(t.requests) + RequestsOf(run.hops, verb, DirectBody(initBody, reqBody)))
  {
    if prepared.Err? {
      return Err(prepared.error);
    }
    var body := if Truthy(initBody) then initBody else reqBody;
    var url := prepared.value;
    if IsBlob(url) {
      return native(url);
    }
    if found.Err? {
      return Err(found.error);
    }
    var switcher := found.value;
    if switcher.active.None? {
      if retry.Err? {
        return Err(retry.error);
      }
      switcher := retry.value;
    }
    if switcher.active.None? {
      return Err(NoBareClients);
    }
    var client := switcher.active.value;
    if !client.ready {
      var initialised := client.Init();
      if initialised.Err? {
        return Err(initialised.error);
      }
    }
    r := FollowRedirects(client, url, verb, body, headers, p);
  }
}
