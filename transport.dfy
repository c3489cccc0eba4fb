/**
 * The transport a bare-mux deployment plugs in, as the rest of the system
 * sees it: a `ready` flag, `init()`, `request()` and `connect()`. What it
 * does on the network is abstract: `request` answers with a fixed function
 * of the request, and the calls it receives are recorded in order.
 */
module TransportModel {
  import opened Js
  import opened Wrappers
  import opened Wire

  datatype Request = Request(url: Url, verb: string, body: Value, headers: Headers)

  datatype ConnectCall = ConnectCall(url: Url, origin: string, protocols: Protocols, headers: Headers)

  /** A call made through the `[data, close]` pair `connect` returns. */
  datatype SocketCall = SendData(data: Value) | CloseSocket(code: Value, reason: Value)

  class Transport {
    var ready: bool
    /** How `init()` settles. */
    const initOutcome: Result<(), Exception>
    /** How `request()` settles for a given request. */
    const respond: Request -> Result<TransferrableResponse, Exception>
    /** How `connect()` returns: normally, or by throwing. */
    const connectOutcome: Result<(), Exception>
    var inits: nat
    var requests: seq<Request>
    var connects: seq<ConnectCall>
    var socketCalls: seq<SocketCall>

    constructor (ready: bool, initOutcome: Result<(), Exception>,
                 respond: Request -> Result<TransferrableResponse, Exception>,
                 connectOutcome: Result<(), Exception>)
      ensures this.ready == ready && this.initOutcome == initOutcome
      ensures this.respond == respond && this.connectOutcome == connectOutcome
      ensures inits == 0 && requests == [] && connects == [] && socketCalls == []
    {
      this.ready := ready;
      this.initOutcome := initOutcome;
      this.respond := respond;
      this.connectOutcome := connectOutcome;
      inits := 0;
      requests := [];
      connects := [];
      socketCalls := [];
    }

    method Init() returns (r: Result<(), Exception>)
      modifies this`ready, this`inits
      ensures r == initOutcome && inits == old(inits) + 1
      ensures ready == (old(ready) || initOutcome.Ok?)
    {
      inits := inits + 1;
      r := initOutcome;
      if r.Ok? {
        ready := true;
      }
    }

    method Request(req: Request) returns (r: Result<TransferrableResponse, Exception>)
      modifies this`requests
      ensures r == respond(req) && requests == old(requests) + [req]
    {
      requests := requests + [req];
      r := respond(req);
    }

    method Connect(call: ConnectCall) returns (r: Result<(), Exception>)
      modifies this`connects
      ensures r == connectOutcome && connects == old(connects) + [call]
    {
      connects := connects + [call];
      r := connectOutcome;
    }

    /** The `data` and `close` functions `connect` returned. */
    method Call(call: SocketCall)
      modifies this`socketCalls
      ensures socketCalls == old(socketCalls) + [call]
    {
      socketCalls := socketCalls + [call];
    }
  }
}
