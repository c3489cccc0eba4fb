/**
 * The worker-RPC revision of the client: `BareClient.fetch` hands every hop
 * of its redirect loop to the shared worker as a `fetch` message, and
 * `BareMuxConnection.setTransport` selects the worker's transport with a
 * `set` message.
 */
module RpcClient {
  import opened Js
  import opened Wrappers
  import opened Wire
  import opened FetchRules

  /** How `sendMessage` settles for a reply: an `error` reply rejects with
      the error it carries, any other reply resolves to itself. */
  function Settle(reply: WorkerResponse): (r: Result<WorkerResponse, Exception>)
    ensures r.Err? <==> reply.ErrorReply?
    ensures r.Err? ==> r.error == reply.error
    ensures r.Ok? ==> r.value == reply
  {
    if reply.ErrorReply? then Err(reply.error) else Ok(reply)
  }

  /** The client's end of the connection to the shared worker. The worker is
      abstract: it answers each message with a fixed function of it, and the
      messages sent are recorded in order. */
  class WorkerConnection {
    var sent: seq<WorkerMessage>
    const answer: WorkerMessage -> WorkerResponse

    constructor (answer: WorkerMessage -> WorkerResponse)
      ensures sent == [] && this.answer == answer
    {
      sent := [];
      this.answer := answer;
    }

    /** `sendMessage(message, transferable)`: the message is posted with
        its reply port and `transfer`, and settles by the reply. A stream or
        port the message holds but `transfer` does not list makes
        `postMessage` throw, so nothing is posted and the call rejects. */
    method SendMessage(message: WorkerMessage, transfer: seq<Value>) returns (r: Result<WorkerResponse, Exception>)
      modifies this`sent
      ensures CloneError(message, transfer).Some? ==>
        sent == old(sent) && r == Err(CloneError(message, transfer).value)
      ensures CloneError(message, transfer).None? ==>
        sent == old(sent) + [message] && r == Settle(answer(message))
    {
      var failure := CloneError(message, transfer);
      if failure.Some? {
        return Err(failure.value);
      }
      sent := sent + [message];
      var reply := answer(message);
      if reply.ErrorReply? {
        return Err(reply.error);
      }
      r := Ok(reply);
    }
  }

  class BareMuxConnection {
    const worker: WorkerConnection

    constructor (worker: WorkerConnection)
      ensures this.worker == worker
    {
      this.worker := worker;
    }

    /** `setTransport(transport)`: exactly one `set` message carrying the
        string itself as its `client`. */
    method SetTransport(transport: string) returns (r: Result<(), Exception>)
      modifies worker`sent
      ensures worker.sent == old(worker.sent) + [Set(ClientText(transport))]
      ensures r.Err? <==> worker.answer(Set(ClientText(transport))).ErrorReply?
      ensures r.Err? ==> r.error == worker.answer(Set(ClientText(transport))).error
    {
      r := SendSet(ClientText(transport));
    }

    /** The `setTransport` the worker is written for: one `set` message
        whose `client` carries the factory code as `function` and the
        transport's constructor arguments as `args`. Nothing is transferred,
        so an argument that is a stream or a port stops the message. */
    method SetTransportFactory(code: string, args: seq<Value>) returns (r: Result<(), Exception>)
      modifies worker`sent
      ensures FirstUncloneable(args, []).Some? ==>
        worker.sent == old(worker.sent) && r == Err(DataCloneError(FirstUncloneable(args, []).value))
      ensures FirstUncloneable(args, []).None? ==>
        && worker.sent == old(worker.sent) + [Set(ClientObject(Str(code), args))]
        && (r.Err? <==> worker.answer(Set(ClientObject(Str(code), args))).ErrorReply?)
        && (r.Err? ==> r.error == worker.answer(Set(ClientObject(Str(code), args))).error)
    {
      assert ValuesOf(Set(ClientObject(Str(code), args))) == [Str(code)] + args;
      assert FirstUncloneable([Str(code)] + args, []) == FirstUncloneable(args, []) by {
        assert ([Str(code)] + args)[1..] == args;
      }
      r := SendSet(ClientObject(Str(code), args));
    }

    /** One `set` message with nothing transferred; it fails when the
        message cannot be cloned or when the worker replies `error`. */
    method SendSet(client: ClientSpec) returns (r: Result<(), Exception>)
      modifies worker`sent
      ensures CloneError(Set(client), []).Some? ==>
        worker.sent == old(worker.sent) && r == Err(CloneError(Set(client), []).value)
      ensures CloneError(Set(client), []).None? ==>
        && worker.sent == old(worker.sent) + [Set(client)]
        && (r.Err? <==> worker.answer(Set(client)).ErrorReply?)
        && (r.Err? ==> r.error == worker.answer(Set(client)).error)
    {
      var reply := worker.SendMessage(Set(client), []);
      if reply.Err? {
        return Err(reply.error);
      }
      r := Ok(());
    }
  }

  /** What reading `status` off the missing `fetch` field of a reply throws. */
  const NoFetchField: Exception := TypeError("Cannot read properties of undefined (reading 'status')")

  /** The message one hop sends: the current URL as a string, the request's
      method and body, and the header record as it stands. */
  function FetchRequest(u: Url, verb: string, body: Value, h: Headers): (m: WorkerMessage)
    ensures m.FetchMessage? && m.fetch.remote == u.href && m.fetch.headers == h
    ensures m.fetch.verb == verb && m.fetch.body == body
    ensures forall transfer :: (CloneError(m, transfer)
      == if TransferOnly(body) && body !in transfer then Some(DataCloneError(body)) else None)
  {
    FetchMessage(FetchPayload(u.href, verb, h, body))
  }

  /** The response a hop reads from `(await sendMessage(...)).fetch`. */
  function Unwrap(reply: WorkerResponse): (r: Result<TransferrableResponse, Exception>)
    ensures r.Ok? <==> reply.FetchReply?
    ensures r.Ok? ==> r.value == reply.fetch
    ensures reply.ErrorReply? ==> r == Err(reply.error)
    ensures !reply.FetchReply? && !reply.ErrorReply? ==> r == Err(NoFetchField)
  {
    match reply
    case FetchReply(resp) => Ok(resp)
    case ErrorReply(e) => Err(e)
    case _ => Err(NoFetchField)
  }

  /** What a hop reads back once its `fetch` message reaches the worker. */
  function WorkerSender(answer: WorkerMessage -> WorkerResponse, verb: string, body: Value): Sender
  {
    (u: Url, h: Headers) => Unwrap(answer(FetchRequest(u, verb, body, h)))
  }

  /** How each hop reaches the transport as the loop is written: the
      message goes without a transfer list, so a stream body never leaves
      the page and the hop rejects with the clone error. */
  function RpcSender(answer: WorkerMessage -> WorkerResponse, verb: string, body: Value): Sender
  {
    (u: Url, h: Headers) =>
      if TransferOnly(body) then Err(DataCloneError(body)) else WorkerSender(answer, verb, body)(u, h)
  }

  /** A request with a stream body rejects on its first hop with the clone
      error, whatever the worker would have answered. */
  lemma StreamBodyRejected(answer: WorkerMessage -> WorkerResponse, verb: string, body: Value,
                           p: Policy, url: Url, h: Headers)
    requires TransferOnly(body)
    ensures var run := Chain(RpcSender(answer, verb, body), p, url, h, 0);
      && run.result == Err(DataCloneError(body))
      && |run.hops| == 1
      && run.hops[0].outcome == Err(DataCloneError(body))
  {
    ChainStops(RpcSender(answer, verb, body), p, url, h, 0);
  }

  /** Any other body reaches the worker unchanged. */
  lemma ClonableBodyReachesWorker(answer: WorkerMessage -> WorkerResponse, verb: string, body: Value)
    requires !TransferOnly(body)
    ensures SameAnswers(RpcSender(answer, verb, body), WorkerSender(answer, verb, body))
  {
    forall u, h
      ensures Agree(RpcSender(answer, verb, body), WorkerSender(answer, verb, body), u, h)
    {
    }
  }

  /** The messages the worker receives for `hops`, one per hop, in order. */
  function MessagesOf(hops: seq<Hop>, verb: string, body: Value): (r: seq<WorkerMessage>)
    ensures |r| == |hops|
  {
    if hops == [] then []
    else MessagesOf(hops[..|hops| - 1], verb, body)
         + [FetchRequest(hops[|hops| - 1].url, verb, body, hops[|hops| - 1].headers)]
  }

  lemma MessagesOfSnoc(hops: seq<Hop>, hop: Hop, verb: string, body: Value)
    ensures MessagesOf(hops + [hop], verb, body)
         == MessagesOf(hops, verb, body) + [FetchRequest(hop.url, verb, body, hop.headers)]
  {
    assert (hops + [hop])[..|hops|] == hops;
  }

  /** The messages the worker receives for `hops`: one per hop, or none
      when the body is a stream, which never clones. */
  function SentFor(hops: seq<Hop>, verb: string, body: Value): (r: seq<WorkerMessage>)
    ensures TransferOnly(body) ==> r == []
    ensures !TransferOnly(body) ==> r == MessagesOf(hops, verb, body)
  {
    if TransferOnly(body) then [] else MessagesOf(hops, verb, body)
  }

  /** One more hop adds its own message after those already sent. */
  lemma SentForSnoc(start: seq<WorkerMessage>, hops: seq<Hop>, hop: Hop, verb: string, body: Value)
    ensures start + SentFor(hops, verb, body)
            + (if TransferOnly(body) then [] else [FetchRequest(hop.url, verb, body, hop.headers)])
         == start + SentFor(hops + [hop], verb, body)
  {
    if !TransferOnly(body) {
      MessagesOfSnoc(hops, hop, verb, body);
      SnocAssoc(start, MessagesOf(hops, verb, body), FetchRequest(hop.url, verb, body, hop.headers));
    }
  }

  /** Message `k` is a `fetch` of hop `k`'s URL with hop `k`'s header record. */
  lemma {:induction false} MessagesOfIndex(hops: seq<Hop>, verb: string, body: Value, k: nat)
    requires k < |hops|
    ensures MessagesOf(hops, verb, body)[k] == FetchRequest(hops[k].url, verb, body, hops[k].headers)
    decreases |hops|
  {
    if k < |hops| - 1 {
      MessagesOfIndex(hops[..|hops| - 1], verb, body, k);
    }
  }

  /** One pass of the loop: write the host header, send one `fetch` message,
      and decide from the reply. */
  method Attempt(worker: WorkerConnection, current: Url, verb: string, body: Value,
                 headers: HeaderRecord, p: Policy, i: nat)
    returns (step: Step)
    modifies headers, worker`sent
    ensures headers.fields == WithHost(old(headers.fields), current.host)
    ensures worker.sent == old(worker.sent)
      + (if TransferOnly(body) then [] else [FetchRequest(current, verb, body, headers.fields)])
    ensures step == StepOf(p, RpcSender(worker.answer, verb, body)(current, headers.fields), current, i)
  {
    var fields := headers.fields;
    if "host" in fields {
      fields := fields["host" := current.host];
    } else {
      fields := fields["Host" := current.host];
    }
    headers.fields := fields;
    var message := FetchRequest(current, verb, body, fields);
    assert CloneError(message, []) == if TransferOnly(body) then Some(DataCloneError(body)) else None;
    var reply := worker.SendMessage(message, []);
    var resp: Result<TransferrableResponse, Exception>;
    if reply.Err? {
      resp := Err(reply.error);
    } else if !reply.value.FetchReply? {
      resp := Err(NoFetchField);
    } else {
      resp := Ok(reply.value.fetch);
    }
    if TransferOnly(body) {
      assert resp == Err(DataCloneError(body));
    } else {
      assert resp == Unwrap(worker.answer(message));
      assert resp == WorkerSender(worker.answer, verb, body)(current, fields);
    }
    assert resp == RpcSender(worker.answer, verb, body)(current, fields);
    step := Judge(resp, current, p, i);
  }

  /** The hop as evidently meant: the body goes in the transfer list when
      it is a stream, so the message is always posted and the step is
      decided on the worker's own reply. */
  method AttemptTransferring(worker: WorkerConnection, current: Url, verb: string, body: Value,
                             headers: HeaderRecord, p: Policy, i: nat)
    returns (step: Step)
    modifies headers, worker`sent
    ensures headers.fields == WithHost(old(headers.fields), current.host)
    ensures worker.sent == old(worker.sent) + [FetchRequest(current, verb, body, headers.fields)]
    ensures step == StepOf(p, WorkerSender(worker.answer, verb, body)(current, headers.fields), current, i)
  {
    var fields := headers.fields;
    if "host" in fields {
      fields := fields["host" := current.host];
    } else {
      fields := fields["Host" := current.host];
    }
    headers.fields := fields;
    var transfer := if TransferOnly(body) then [body] else [];
    var reply := worker.SendMessage(FetchRequest(current, verb, body, fields), transfer);
    var resp: Result<TransferrableResponse, Exception>;
    if reply.Err? {
      resp := Err(reply.error);
    } else if !reply.value.FetchReply? {
      resp := Err(NoFetchField);
    } else {
      resp := Ok(reply.value.fetch);
    }
    step := Judge(resp, current, p, i);
  }

  /** The redirect loop: the result and the header record are those of
      `Chain` over the worker, and the worker receives one message per hop
      unless the body is a stream, in which case it receives none. */
  method FollowRedirects(worker: WorkerConnection, url: Url, verb: string, body: Value,
                         headers: HeaderRecord, p: Policy)
    returns (r: Result<BareResponse, Exception>)
    modifies headers, worker`sent
    ensures var run := Chain(RpcSender(worker.answer, verb, body), p, url, old(headers.fields), 0);
      && r == run.result
      && headers.fields == run.headers
      && worker.sent == old(worker.sent) + SentFor(run.hops, verb, body)
  {
    ghost var send := RpcSender(worker.answer, verb, body);
    ghost var whole := Chain(send, p, url, headers.fields, 0);
    ghost var done: seq<Hop> := [];
    ghost var start := worker.sent;
    var current := url;
    var i := 0;
    while true
      invariant 0 <= i <= MaxRedirects
      invariant whole == After(done, Chain(send, p, current, headers.fields, i))
      invariant worker.sent == start + SentFor(done, verb, body)
      decreases MaxRedirects - i
    {
      ghost var before := headers.fields;
      var step := Attempt(worker, current, verb, body, headers, p, i);
      ghost var hop := Hop(current, headers.fields, send(current, headers.fields));
      SentForSnoc(start, done, hop, verb, body);
      if !step.Redirect? {
        LoopStops(send, p, whole, done, current, before, i);
        return Finish(step);
      }
      LoopContinues(send, p, whole, done, current, before, i);
      done := done + [hop];
      current := step.next;
      i := i + 1;
    }
  }

  /** `fetch(url, init)`. `prepared` is how `new Request(url, init)` and
      `new URL(req.url)` came out, and every hop sends the parsed request's
      `body`. `blob:` URLs go to the host's own `fetch` and never reach the
      worker; anything else runs the redirect loop. */
  method Fetch(worker: WorkerConnection, prepared: Result<Url, Exception>, verb: string, reqBody: Value,
               headers: HeaderRecord, p: Policy, native: Url -> Result<BareResponse, Exception>)
    returns (r: Result<BareResponse, Exception>)
    modifies headers, worker`sent
    ensures prepared.Err? ==> r == Err(prepared.error) && unchanged(headers) && worker.sent == old(worker.sent)
    ensures prepared.Ok? && IsBlob(prepared.value) ==>
      r == native(prepared.value) && unchanged(headers) && worker.sent == old(worker.sent)
    ensures prepared.Ok? && !IsBlob(prepared.value) ==>
      var run := Chain(RpcSender(worker.answer, verb, reqBody), p, prepared.value, old(headers.fields), 0);
      && r == run.result
      && headers.fields == run.headers
      && worker.sent == old(worker.sent) + SentFor(run.hops, verb, reqBody)
  {
    if prepared.Err? {
      return Err(prepared.error);
    }
    var url := prepared.value;
    if IsBlob(url) {
      return native(url);
    }
    r := FollowRedirects(worker, url, verb, reqBody, headers, p);
  }

  /** Message `k` of a run is a `fetch` of the URL hop `k` is at, carrying
      the header record that holds that URL's host under the caller's key. */
  lemma HopMessages(answer: WorkerMessage -> WorkerResponse, verb: string, body: Value,
                    p: Policy, url: Url, h: Headers, k: nat)
    requires k < |Chain(RpcSender(answer, verb, body), p, url, h, 0).hops|
    ensures var hops := Chain(RpcSender(answer, verb, body), p, url, h, 0).hops;
      && MessagesOf(hops, verb, body)[k] == FetchRequest(hops[k].url, verb, body, hops[k].headers)
      && WritesOwnHost(hops[k], h)
  {
    var hops := Chain(RpcSender(answer, verb, body), p, url, h, 0).hops;
    MessagesOfIndex(hops, verb, body, k);
    ChainHostHeader(RpcSender(answer, verb, body), p, url, h, 0, k);
  }
}
