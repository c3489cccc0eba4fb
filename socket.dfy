/**
 * `BareWebSocket`, the client-side stand-in for a WebSocket whose real
 * connection lives in the worker. Frames arriving on its channel drive
 * `readyState` through CONNECTING, OPEN, CLOSING and CLOSED and dispatch
 * events; `send` and `close` post commands back on the same channel.
 */
module WebSocketProxy {
  import opened Js
  import opened Wrappers
  import opened Wire

  /** The handler the channel's `onmessage` calls for a frame. */
  datatype Inbound = OnOpen(protocol: Value) | OnMessage(payload: Value) | OnClose(code: Value, reason: Value) | OnError

  /** Which handler a frame reaches, with which arguments; other frame types are ignored. */
  function DecodeFrame(f: Frame): Option<Inbound>
  {
    if f.kind == "open" then Some(OnOpen(Arg(f.args, 0)))
    else if f.kind == "message" then Some(OnMessage(Arg(f.args, 0)))
    else if f.kind == "close" then Some(OnClose(Arg(f.args, 0), Arg(f.args, 1)))
    else if f.kind == "error" then Some(OnError)
    else None
  }

  /** An event dispatched on the socket. */
  datatype Event = OpenEvent | MessageEvent(data: Value) | CloseEvent(code: Value, reason: Value) | ErrorEvent

  /** The `data` of the message event for a payload under `binaryType`, or
      None when the handler throws before dispatching: the `"byteLength" in`
      test throws on a primitive other than a string. Under `"blob"` a buffer
      or view becomes a blob; under `"arraybuffer"` a blob becomes a buffer. */
  function MessageData(payload: Value, binaryType: string): Option<Value>
  {
    if payload.Str? then Some(payload)
    else if NonStringPrimitive(payload) then None
    else if HasByteLength(payload) then
      if binaryType == "blob" then Some(Blob(BytesOf(payload))) else Some(payload)
    else if payload.Blob? && binaryType == "arraybuffer" then Some(ArrayBuffer(payload.bytes))
    else Some(payload)
  }

  /** Whatever `binaryType` says, a message handler dispatches exactly when the
      payload is a string or an object, and a binary payload reaches the event
      with its bytes intact. */
  lemma MessageDataKeepsBytes(payload: Value, binaryType: string)
    ensures MessageData(payload, binaryType).None? <==> NonStringPrimitive(payload)
    ensures payload.Str? ==> MessageData(payload, binaryType) == Some(payload)
    ensures HasByteLength(payload) || payload.Blob? ==>
      var d := MessageData(payload, binaryType).value;
      (HasByteLength(d) || d.Blob?) && BytesOf(d) == BytesOf(payload)
    ensures binaryType == "blob" && (HasByteLength(payload) || payload.Blob?) ==>
      MessageData(payload, binaryType).value.Blob?
    ensures binaryType == "arraybuffer" && (payload.ArrayBuffer? || payload.Blob?) ==>
      MessageData(payload, binaryType).value.ArrayBuffer?
  {
  }

  /** The event a handler dispatches, if any. */
  function EventFor(e: Inbound, binaryType: string): Option<Event>
  {
    match e
    case OnOpen(_) => Some(OpenEvent)
    case OnMessage(d) => if MessageData(d, binaryType).Some? then Some(MessageEvent(MessageData(d, binaryType).value)) else None
    case OnClose(c, r) => Some(CloseEvent(c, r))
    case OnError => Some(ErrorEvent)
  }

  /** The readyState a handler leaves: open makes it OPEN, close and error make
      it CLOSED, whatever it was; a message leaves it alone. */
  function NextReadyState(rs: int, e: Inbound): int
  {
    match e
    case OnOpen(_) => OPEN
    case OnMessage(_) => rs
    case OnClose(_, _) => CLOSED
    case OnError => CLOSED
  }

  /** Whether a frame changes readyState at all. */
  predicate ChangesState(f: Frame)
  {
    DecodeFrame(f).Some? && !DecodeFrame(f).value.OnMessage?
  }

  /** readyState after a sequence of frames, starting from `rs`. */
  function ReadyStateAfter(rs: int, frames: seq<Frame>): int
    decreases |frames|
  {
    if frames == [] then rs
    else
      var last := frames[|frames| - 1];
      var before := ReadyStateAfter(rs, frames[..|frames| - 1]);
      match DecodeFrame(last)
      case None => before
      case Some(e) => NextReadyState(before, e)
  }

  /** Frames that change nothing (messages and unknown types) leave readyState
      where it was; once any frame changes it, it is OPEN or CLOSED. */
  lemma {:induction false} ReadyStateAfterChanges(rs: int, frames: seq<Frame>)
    ensures (forall k :: 0 <= k < |frames| ==> !ChangesState(frames[k])) ==> ReadyStateAfter(rs, frames) == rs
    ensures (exists k :: 0 <= k < |frames| && ChangesState(frames[k])) ==>
      ReadyStateAfter(rs, frames) == OPEN || ReadyStateAfter(rs, frames) == CLOSED
    decreases |frames|
  {
    if frames != [] {
      var init := frames[..|frames| - 1];
      ReadyStateAfterChanges(rs, init);
      assert forall k :: 0 <= k < |init| ==> init[k] == frames[k];
      if exists k :: 0 <= k < |frames| && ChangesState(frames[k]) {
        var k :| 0 <= k < |frames| && ChangesState(frames[k]);
        if k < |init| {
          assert ChangesState(init[k]);
        }
      }
    }
  }

  /** A fresh socket stays CONNECTING, so `send` keeps throwing, exactly until
      an open, close or error frame arrives. */
  lemma StillConnecting(frames: seq<Frame>)
    ensures ReadyStateAfter(CONNECTING, frames) == CONNECTING <==>
      forall k :: 0 <= k < |frames| ==> !ChangesState(frames[k])
  {
    ReadyStateAfterChanges(CONNECTING, frames);
  }

  /** A constructor argument of `undefined` takes the default `[]`. */
  function WithDefault(p: Protocols): (r: Protocols)
    ensures p != Single(Undefined) ==> r == p
    ensures r != Single(Undefined)
  {
    if p == Single(Undefined) then List([]) else p
  }

  /** The `protocol` getter: the first entry of a list, or the single value,
      when that is truthy; otherwise the empty string. */
  function ProtocolOf(p: Protocols): (r: Value)
    ensures r == Str("") || Truthy(r)
    ensures Truthy(r) ==> (if p.List? then |p.items| > 0 && r == p.items[0] else r == p.v)
    ensures p.List? && |p.items| > 0 && Truthy(p.items[0]) ==> r == p.items[0]
    ensures p.Single? && Truthy(p.v) ==> r == p.v
  {
    match p
    case List(items) => if |items| > 0 && Truthy(items[0]) then items[0] else Str("")
    case Single(v) => if Truthy(v) then v else Str("")
  }

  /** What `send` posts for its argument: a typed view becomes a copy of its
      byte range; everything else goes as it is. */
  function SendPayload(data: Value): (r: Value)
    ensures data.TypedView? ==> r.ArrayBuffer?
    ensures !data.TypedView? ==> r == data
    ensures data.TypedView? && data.byteOffset + data.byteLength <= |data.backing| ==>
      r == ArrayBuffer(data.backing[data.byteOffset..data.byteOffset + data.byteLength])
      && |r.bytes| == data.byteLength
  {
    match data
    case TypedView(b, off, len) => ArrayBuffer(SliceBytes(b, off, off + len))
    case _ => data
  }

  const StillConnectingError: Exception :=
    DOMException("Failed to execute 'send' on 'WebSocket': Still in CONNECTING state.")

  /** What reading `buffer` off `undefined` or `null` throws. */
  function NoBufferError(data: Value): Exception
  {
    TypeError("Cannot read properties of " + (if data.Null? then "null" else "undefined") + " (reading 'buffer')")
  }

  class BareWebSocket {
    const url: string
    var protocols: Protocols
    var readyState: int
    /** How binary message payloads are delivered: `"blob"` at first. */
    var binaryType: string
    /** `meta.headers["sec-websocket-protocol"]`, set by an open frame. */
    var meta: Option<Value>
    /** Events dispatched, in order. */
    var events: seq<Event>
    /** Commands posted on the client's end of the channel, in order. */
    var posted: seq<Posted<Command>>
    /** The `websocket` message sent to the worker at construction. */
    const request: Posted<WorkerMessage>

    ghost predicate Valid()
      reads this
    {
      IsReadyState(readyState)
    }

    constructor (remote: string, protocols: Protocols, origin: string, requestHeaders: Headers, channel: nat)
      ensures Valid() && readyState == CONNECTING
      ensures url == remote && this.protocols == WithDefault(protocols)
      ensures meta == None && events == [] && posted == [] && binaryType == "blob"
      ensures request == Posted(WebSocketMessage(WebSocketPayload(remote, origin, WithDefault(protocols),
                                                                  requestHeaders, channel)),
                                [Port(channel)])
    {
      url := remote;
      this.protocols := WithDefault(protocols);
      readyState := CONNECTING;
      binaryType := "blob";
      meta := None;
      events := [];
      posted := [];
      request := Posted(WebSocketMessage(WebSocketPayload(remote, origin, WithDefault(protocols),
                                                          requestHeaders, channel)),
                        [Port(channel)]);
    }

    /** The channel's `onmessage`: one frame from the worker. */
    method HandleFrame(f: Frame)
      requires Valid()
      modifies this`readyState, this`protocols, this`meta, this`events
      ensures Valid()
      ensures readyState == ReadyStateAfter(old(readyState), [f])
      ensures DecodeFrame(f).None? ==> unchanged(this)
      ensures DecodeFrame(f).Some? ==>
        events == old(events) + (match EventFor(DecodeFrame(f).value, binaryType)
                                 case Some(ev) => [ev]
                                 case None => [])
      ensures f.kind == "message" && NonStringPrimitive(Arg(f.args, 0)) ==> unchanged(this)
      ensures if f.kind == "open"
              then protocols == Single(Arg(f.args, 0)) && meta == Some(Arg(f.args, 0))
              else protocols == old(protocols) && meta == old(meta)
    {
      assert [f][..0] == [];
      match DecodeFrame(f)
      case None =>
      case Some(e) =>
        match e {
          case OnOpen(p) =>
            readyState := OPEN;
            protocols := Single(p);
            meta := Some(p);
          case OnMessage(_) =>
          case OnClose(_, _) =>
            readyState := CLOSED;
          case OnError =>
            readyState := CLOSED;
        }
        match EventFor(e, binaryType) {
          case Some(ev) => events := events + [ev];
          case None =>
        }
    }

    /** `send(data)`: refused while CONNECTING, posted as one `data` command
        otherwise; only an `ArrayBuffer` goes in the transfer list, so a
        stream or a port makes `postMessage` throw. */
    method Send(data: Value) returns (r: Result<(), Exception>)
      requires Valid()
      modifies this`posted
      ensures Valid()
      ensures old(readyState) == CONNECTING ==> r == Err(StillConnectingError) && posted == old(posted)
      ensures old(readyState) != CONNECTING && (data == Undefined || data == Null) ==> r == Err(NoBufferError(data)) && posted == old(posted)
      ensures old(readyState) != CONNECTING && data != Undefined && data != Null && TransferOnly(SendPayload(data)) ==>
        r == Err(DataCloneError(SendPayload(data))) && posted == old(posted)
      ensures old(readyState) != CONNECTING && data != Undefined && data != Null && !TransferOnly(SendPayload(data)) ==>
        && r == Ok(())
        && posted == old(posted) + [Posted(DataCommand(SendPayload(data)),
                                           if SendPayload(data).ArrayBuffer? then [SendPayload(data)] else [])]
    {
      if readyState == CONNECTING {
        return Err(StillConnectingError);
      }
      if data == Undefined || data == Null {
        return Err(NoBufferError(data));
      }
      var payload := SendPayload(data);
      if TransferOnly(payload) {
        return Err(DataCloneError(payload));
      }
      posted := posted + [Posted(DataCommand(payload), if payload.ArrayBuffer? then [payload] else [])];
      r := Ok(());
    }

    /** `close(code, reason)`: CLOSING at once, and one `close` command; only
        the worker's close frame makes it CLOSED. */
    method Close(code: Value, reason: Value)
      requires Valid()
      modifies this`readyState, this`posted
      ensures Valid() && readyState == CLOSING
      ensures posted == old(posted) + [Posted(CloseCommand(code, reason), [])]
    {
      readyState := CLOSING;
      posted := posted + [Posted(CloseCommand(code, reason), [])];
    }

    /** The `protocol` getter. */
    function Protocol(): Value
      reads this
    {
      ProtocolOf(protocols)
    }

    function BufferedAmount(): (r: int)
      ensures r == 0
    {
      0
    }

    function Extensions(): (r: string)
      ensures r == ""
    {
      ""
    }
  }
}
