/**
 * The two revisions of `BareClient.fetch` side by side: the one that sends
 * each hop to the shared worker behaves as the one that calls the transport
 * itself, provided the worker relays the transport's answers and the body
 * can be cloned, and a ready local transport behind the worker does relay
 * them.
 */
module EndToEnd {
  import opened Js
  import opened Wrappers
  import opened Wire
  import opened TransportModel
  import opened FetchRules
  import RpcClient
  import DirectClient
  import WorkerDispatch

  /** The reply a worker sends for how the transport's `request` settled. */
  function Relay(outcome: Result<TransferrableResponse, Exception>): (r: WorkerResponse)
    ensures r.FetchReply? <==> outcome.Ok?
    ensures outcome.Ok? ==> r.fetch == outcome.value
    ensures outcome.Err? ==> r == ErrorReply(outcome.error)
  {
    match outcome
    case Ok(resp) => FetchReply(resp)
    case Err(e) => ErrorReply(e)
  }

  /** The client reads back exactly what the worker relayed. */
  lemma UnwrapRelay(outcome: Result<TransferrableResponse, Exception>)
    ensures RpcClient.Unwrap(Relay(outcome)) == outcome
  {
  }

  /** The worker answers every `fetch` message of this method and body with
      the relayed outcome of the matching transport request. */
  ghost predicate Relays(answer: WorkerMessage -> WorkerResponse,
                         respond: Request -> Result<TransferrableResponse, Exception>,
                         verb: string, body: Value)
  {
    forall u, h :: answer(RpcClient.FetchRequest(u, verb, body, h)) == Relay(respond(Request(u, verb, body, h)))
  }

  /** Once its message reaches a relaying worker, a hop reads back what
      the transport answers the direct client's request with the same body. */
  lemma TransferredHopRelays(answer: WorkerMessage -> WorkerResponse,
                             respond: Request -> Result<TransferrableResponse, Exception>,
                             verb: string, body: Value)
    requires Relays(answer, respond, verb, body)
    ensures SameAnswers(RpcClient.WorkerSender(answer, verb, body), DirectClient.DirectSender(respond, verb, body))
  {
    forall u, hs
      ensures Agree(RpcClient.WorkerSender(answer, verb, body), DirectClient.DirectSender(respond, verb, body), u, hs)
    {
      assert answer(RpcClient.FetchRequest(u, verb, body, hs)) == Relay(respond(Request(u, verb, body, hs)));
      UnwrapRelay(respond(Request(u, verb, body, hs)));
    }
  }

  /** Over a relaying worker, the worker-RPC loop makes the same hops, ends
      with the same result and leaves the same header record as the direct
      loop over the transport, when the request's body can be cloned and
      the caller's `init.body` is falsy: the direct client sends a truthy
      `init.body` in place of the parsed request's `body`, the worker-RPC
      client never does, and a stream body never leaves the page (see
      `RpcClient.StreamBodyRejected`). */
  lemma RevisionsAgree(answer: WorkerMessage -> WorkerResponse,
                       respond: Request -> Result<TransferrableResponse, Exception>,
                       verb: string, initBody: Value, reqBody: Value, p: Policy, url: Url, h: Headers)
    requires Relays(answer, respond, verb, reqBody)
    requires !TransferOnly(reqBody)
    requires !Truthy(initBody)
    ensures Chain(RpcClient.RpcSender(answer, verb, reqBody), p, url, h, 0)
         == Chain(DirectClient.DirectSender(respond, verb, DirectClient.DirectBody(initBody, reqBody)), p, url, h, 0)
  {
    var rpc := RpcClient.RpcSender(answer, verb, reqBody);
    var worker := RpcClient.WorkerSender(answer, verb, reqBody);
    var direct := DirectClient.DirectSender(respond, verb, DirectClient.DirectBody(initBody, reqBody));
    RpcClient.ClonableBodyReachesWorker(answer, verb, reqBody);
    TransferredHopRelays(answer, respond, verb, reqBody);
    forall u, hs
      ensures Agree(rpc, direct, u, hs)
    {
      assert Agree(rpc, worker, u, hs);
      assert Agree(worker, direct, u, hs);
    }
    ChainSameSender(rpc, direct, p, url, h, 0);
  }

  /** With a truthy `init.body` other than the request's own, the two
      revisions put different bodies on the first hop. */
  lemma BodiesDiffer(respond: Request -> Result<TransferrableResponse, Exception>, verb: string,
                     initBody: Value, reqBody: Value, u: Url, h: Headers)
    requires Truthy(initBody) && initBody != reqBody
    ensures RpcClient.FetchRequest(u, verb, reqBody, h).fetch.body
         != Request(u, verb, DirectClient.DirectBody(initBody, reqBody), h).body
  {
  }

  /** `setTransport` as written never succeeds against the worker: a string
      `client` makes the worker's `set` reply with the destructuring error,
      so the call rejects with it. */
  lemma SetTransportAlwaysFails(answer: WorkerMessage -> WorkerResponse, slot: WorkerDispatch.Slot, name: string,
                                factory: Result<(Transport, string), Exception>, transport: string)
    requires answer(Set(ClientText(transport)))
          == WorkerDispatch.SetOutcome(slot, name, ClientText(transport), factory).reply
    ensures RpcClient.Settle(answer(Set(ClientText(transport)))) == Err(WorkerDispatch.NotIterable)
  {
    WorkerDispatch.SetTextFails(slot, name, transport, factory);
  }

  /** The corrected `setTransport` reaches the worker's factory: it succeeds
      exactly when the factory does. */
  lemma SetTransportFactoryReaches(answer: WorkerMessage -> WorkerResponse, slot: WorkerDispatch.Slot, name: string,
                                   factory: Result<(Transport, string), Exception>, code: string, args: seq<Value>)
    requires code != WorkerDispatch.RemoteFunction
    requires answer(Set(ClientObject(Str(code), args)))
          == WorkerDispatch.SetOutcome(slot, name, ClientObject(Str(code), args), factory).reply
    ensures RpcClient.Settle(answer(Set(ClientObject(Str(code), args)))).Ok? <==> factory.Ok?
  {
    WorkerDispatch.SetCodeReachesFactory(slot, name, code, args, factory);
  }

  /** Where streams can be transferred, the worker's reply to a hop's
      message over a ready local transport is the relayed outcome of the
      request that hop describes, once the URL string parses back to itself. */
  lemma WorkerRelaysHop(respond: Request -> Result<TransferrableResponse, Exception>,
                        connectOutcome: Result<(), Exception>, initOutcome: Result<(), Exception>,
                        parse: string -> Option<Url>, drain: nat -> seq<bv8>,
                        verb: string, body: Value, u: Url, h: Headers)
    requires parse(u.href) == Some(u)
    ensures WorkerDispatch.LocalReply(true, initOutcome, respond, connectOutcome,
                                      RpcClient.FetchRequest(u, verb, body, h), parse, true, drain).message
         == Relay(respond(Request(u, verb, body, h)))
  {
  }
}
