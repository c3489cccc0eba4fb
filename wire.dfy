/**
 * The records bare-mux posts between a client context and the shared worker:
 * worker messages and their replies, the frames a WebSocket channel carries
 * from the worker, and the commands it carries back.
 */
module Wire {
  import opened Js
  import opened Wrappers

  /** A header record (`BareHeaders`), keyed by name with the caller's casing. */
  type Headers = map<string, string>

  /** A header object the caller passed in and the client writes into in place. */
  class HeaderRecord {
    var fields: Headers

    constructor (fields: Headers)
      ensures this.fields == fields
    {
      this.fields := fields;
    }
  }

  /** A subprotocol argument: a list, or a single value (a string or `undefined`). */
  datatype Protocols = List(items: seq<Value>) | Single(v: Value)

  /** The `client` field of a `set` message: an object with `function` and
      `args`, or (as `BareMuxConnection.setTransport` sends it) a plain string. */
  datatype ClientSpec = ClientObject(fn: Value, args: seq<Value>) | ClientText(text: string)

  /** The `fetch` payload; `verb` is the request method. */
  datatype FetchPayload = FetchPayload(remote: string, verb: string, headers: Headers, body: Value)

  datatype WebSocketPayload =
    WebSocketPayload(url: string, origin: string, protocols: Protocols, requestHeaders: Headers, channel: nat)

  /** A message from a client to the worker; its reply port travels beside it. */
  datatype WorkerMessage =
    | Ping
    | Get
    | Set(client: ClientSpec)
    | FetchMessage(fetch: FetchPayload)
    | WebSocketMessage(websocket: WebSocketPayload)

  /** The response a transport produces and the worker sends back (`TransferrableResponse`). */
  datatype TransferrableResponse =
    TransferrableResponse(status: int, statusText: string, headers: Headers, body: Value)

  /** A reply from the worker. */
  datatype WorkerResponse =
    | Pong
    | SetReply
    | GetReply(name: string)
    | FetchReply(fetch: TransferrableResponse)
    | WebSocketReply
    | ErrorReply(error: Exception)

  /** Whether `postMessage` can move `v` only by transferring it: a stream or
      a port cannot be cloned. */
  predicate TransferOnly(v: Value)
  {
    v.Stream? || v.Port?
  }

  /** The values a worker message holds, in the order the structured clone
      meets them. */
  function ValuesOf(m: WorkerMessage): seq<Value>
  {
    match m
    case Set(ClientObject(fn, args)) => [fn] + args
    case FetchMessage(f) => [f.body]
    case WebSocketMessage(w) =>
      (match w.protocols case List(items) => items case Single(v) => [v]) + [Port(w.channel)]
    case _ => []
  }

  /** The first of `values` that can only be transferred but is missing from
      `transfer`. */
  function FirstUncloneable(values: seq<Value>, transfer: seq<Value>): (r: Option<Value>)
    ensures r.None? <==> forall k :: 0 <= k < |values| && TransferOnly(values[k]) ==> values[k] in transfer
    ensures r.Some? ==> r.value in values && TransferOnly(r.value) && r.value !in transfer
    decreases |values|
  {
    if values == [] then None
    else if TransferOnly(values[0]) && values[0] !in transfer then Some(values[0])
    else
      var rest := FirstUncloneable(values[1..], transfer);
      assert forall k :: 1 <= k < |values| ==> values[k] == values[1..][k - 1];
      rest
  }

  /** What `postMessage(message, transfer)` throws, if anything. */
  function CloneError(message: WorkerMessage, transfer: seq<Value>): (r: Option<Exception>)
    ensures r.None? <==> FirstUncloneable(ValuesOf(message), transfer).None?
    ensures r.Some? ==> r.value == DataCloneError(FirstUncloneable(ValuesOf(message), transfer).value)
  {
    match FirstUncloneable(ValuesOf(message), transfer)
    case Some(v) => Some(DataCloneError(v))
    case None => None
  }

  /** A message posted on a port, with its transfer list. */
  datatype Posted<M> = Posted(message: M, transfer: seq<Value>)

  /** An event frame `{type, args}` posted by the worker on a socket's channel. */
  datatype Frame = Frame(kind: string, args: seq<Value>)

  /** A command `{type, data, closeCode, closeReason}` posted by the client on
      a socket's channel; fields the sender leaves out read as `undefined`. */
  datatype Command = Command(kind: string, data: Value, closeCode: Value, closeReason: Value)

  function DataCommand(data: Value): Command
  {
    Command("data", data, Undefined, Undefined)
  }

  function CloseCommand(code: Value, reason: Value): Command
  {
    Command("close", Undefined, code, reason)
  }

  /** `args[k]`, which is `undefined` past the end. */
  function Arg(args: seq<Value>, k: nat): Value
  {
    if k < |args| then args[k] else Undefined
  }
}
