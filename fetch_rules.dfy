/**
 * The rules both revisions of `BareClient.fetch` apply on every hop: which
 * host header they write, which statuses lose their body or are refused, and how the
 * `follow` / `error` / `manual` redirect modes treat statuses 301, 302, 303,
 * 307 and 308 under a cap of 20 redirects (section 4.4 "HTTP-redirect fetch"
 * of the WHATWG Fetch Standard). `Chain` is the whole redirect loop as a
 * function; the two client modules prove their loops equal to it.
 */
module FetchRules {
  import opened Js
  import opened Wrappers
  import opened Wire

  const MaxRedirects: nat := 20
  const EmptyBodyStatuses: seq<int> := [101, 204, 205, 304]
  const RedirectStatuses: seq<int> := [301, 302, 303, 307, 308]

  /** `init.redirect`, which the host's Request constructor limits to these three. */
  datatype RedirectMode = Follow | ErrorMode | Manual

  const FailedToFetch: Exception := TypeError("Failed to fetch")
  const InvalidUrl: Exception := TypeError("Failed to construct 'URL': Invalid URL")

  /** The key a hop writes: `host` when the caller already uses it, else `Host`. */
  function HostKey(h: Headers): string
  {
    if "host" in h then "host" else "Host"
  }

  /** The header record after a hop has written the host of its URL. */
  function WithHost(h: Headers, host: string): (r: Headers)
    ensures HostKey(h) in r && r[HostKey(h)] == host
    ensures r.Keys == h.Keys + {HostKey(h)}
    ensures forall k :: k in h && k != HostKey(h) ==> r[k] == h[k]
  {
    h[HostKey(h) := host]
  }

  /** A hop never adds the second spelling: both keys are present afterwards
      only if the caller supplied both. */
  lemma WithHostNeverBoth(h: Headers, host: string)
    ensures "host" in WithHost(h, host) && "Host" in WithHost(h, host) ==> "host" in h && "Host" in h
  {
  }

  /** Later hops keep writing the key the first hop chose, and only the
      latest host survives. */
  lemma WithHostStable(h: Headers, a: string, b: string)
    ensures HostKey(WithHost(h, a)) == HostKey(h)
    ensures WithHost(WithHost(h, a), b) == WithHost(h, b)
  {
  }

  /** The response object handed to the caller, with its `rawHeaders`,
      `rawResponse` body and `finalURL` (absent on the `blob:` path). */
  datatype BareResponse = BareResponse(
    status: int, statusText: string, headers: Headers, body: Value,
    rawHeaders: Headers, rawBody: Value, finalURL: Option<string>)

  /** A Response body: `undefined` and `null` give no body. */
  function BodyOf(v: Value): (b: Value)
    ensures b == Null || b == v
    ensures b == Null <==> v == Undefined || v == Null
  {
    if v == Undefined then Null else v
  }

  /** The `status` a `Response` is constructed with: `ResponseInit.status`
      is an `unsigned short`, so the number is taken modulo 2^16. */
  function ResponseStatus(status: int): (r: nat)
    ensures r < 0x1_0000
    ensures 0 <= status < 0x1_0000 ==> r == status
  {
    status % 0x1_0000
  }

  /** The statuses the `Response` constructor accepts. */
  predicate InRange(status: int)
  {
    200 <= status <= 599
  }

  const StatusRangeHead: string := "Failed to construct 'Response': The status provided ("
  const StatusRangeTail: string := ") is outside the range [200, 599]."

  /** What the `Response` constructor throws for a status it refuses. */
  function StatusRangeError(status: nat): Exception
  {
    RangeError(StatusRangeHead + NatToDecimal(status) + StatusRangeTail)
  }

  /** The response a hop builds from what the transport returned at `url`,
      once the status is accepted. */
  function Shaped(resp: TransferrableResponse, url: Url): BareResponse
  {
    BareResponse(
      ResponseStatus(resp.status), resp.statusText, resp.headers,
      if resp.status in EmptyBodyStatuses then Null else BodyOf(resp.body),
      resp.headers, BodyOf(resp.body), Some(url.href))
  }

  /** The response a hop builds from what the transport returned at `url`,
      or the error the `Response` constructor throws for its status. */
  function ShapeResponse(resp: TransferrableResponse, url: Url): (r: Result<BareResponse, Exception>)
    ensures r.Err? <==> !InRange(ResponseStatus(resp.status))
    ensures r.Err? ==> r.error == StatusRangeError(ResponseStatus(resp.status))
    ensures r.Ok? ==> && r.value.status == ResponseStatus(resp.status) && InRange(r.value.status)
                      && r.value.statusText == resp.statusText && r.value.headers == resp.headers
    ensures r.Ok? && resp.status in EmptyBodyStatuses ==> r.value.body == Null
    ensures r.Ok? && resp.status !in EmptyBodyStatuses ==> r.value.body == BodyOf(resp.body)
    ensures r.Ok? ==> r.value.rawHeaders == resp.headers && r.value.rawBody == BodyOf(resp.body)
    ensures r.Ok? ==> r.value.finalURL == Some(url.href)
  {
    if InRange(ResponseStatus(resp.status)) then Ok(Shaped(resp, url))
    else Err(StatusRangeError(ResponseStatus(resp.status)))
  }

  /** 101 is among the statuses whose body is dropped, but the constructor
      refuses it before that matters: a transport answering 101 makes the
      hop throw. */
  lemma SwitchingProtocolsThrows(resp: TransferrableResponse, url: Url)
    requires resp.status == 101
    ensures ShapeResponse(resp, url) == Err(StatusRangeError(101))
  {
  }

  /** What the loop reads besides the responses: the redirect mode, the
      (case-insensitive) `Location` lookup and URL resolution, both abstract. */
  datatype Policy = Policy(
    mode: RedirectMode,
    location: Headers -> Option<string>,
    resolve: (string, Url) -> Option<Url>)

  datatype Step = Return(response: BareResponse) | Throw(error: Exception) | Redirect(next: Url)

  /** What hop `i` (counted from 0) does with the response it got at `current`. */
  function Decide(p: Policy, resp: BareResponse, current: Url, i: nat): (s: Step)
    ensures resp.status !in RedirectStatuses ==> s == Return(resp)
    ensures resp.status in RedirectStatuses && p.mode == ErrorMode ==> s == Throw(FailedToFetch)
    ensures resp.status in RedirectStatuses && p.mode == Manual ==> s == Return(resp)
    ensures (&& resp.status in RedirectStatuses && p.mode == Follow
             && (i >= MaxRedirects || p.location(resp.headers).None?)) ==> s == Throw(FailedToFetch)
    ensures s.Redirect? <==>
      && resp.status in RedirectStatuses && p.mode == Follow && i < MaxRedirects
      && p.location(resp.headers).Some?
      && p.resolve(p.location(resp.headers).value, current).Some?
    ensures s.Redirect? ==> Some(s.next) == p.resolve(p.location(resp.headers).value, current)
    ensures s.Throw? ==> s.error == FailedToFetch || s.error == InvalidUrl
    ensures s.Return? ==> s.response == resp && (resp.status in RedirectStatuses ==> p.mode == Manual)
  {
    if resp.status !in RedirectStatuses then Return(resp)
    else match p.mode
      case Follow =>
        var location := p.location(resp.headers);
        if MaxRedirects > i && location.Some? then
          match p.resolve(location.value, current)
          case Some(next) => Redirect(next)
          case None => Throw(InvalidUrl)
        else Throw(FailedToFetch)
      case ErrorMode => Throw(FailedToFetch)
      case Manual => Return(resp)
  }

  /** The `blob:` schemes, which are answered by the host's own `fetch`. */
  predicate IsBlob(url: Url)
  {
    |url.protocol| >= 5 && url.protocol[..5] == "blob:"
  }

  /** One request of the loop: where it went, with which headers, and how it settled. */
  datatype Hop = Hop(url: Url, headers: Headers, outcome: Result<TransferrableResponse, Exception>)

  /** The result of the loop, the hops it made and the final header record. */
  datatype Run = Run(result: Result<BareResponse, Exception>, hops: seq<Hop>, headers: Headers)

  type Sender = (Url, Headers) -> Result<TransferrableResponse, Exception>

  /** What a hop does with how its request settled: a rejected request, or
      a status the `Response` constructor refuses, throws. */
  function StepOf(p: Policy, outcome: Result<TransferrableResponse, Exception>, url: Url, i: nat): Step
  {
    match outcome
    case Err(e) => Throw(e)
    case Ok(raw) => Respond(p, raw, url, i)
  }

  /** What a hop does with the response the transport returned: the
      `Response` constructor's error, or `Decide` on the shaped response. */
  function Respond(p: Policy, raw: TransferrableResponse, url: Url, i: nat): Step
  {
    if InRange(ResponseStatus(raw.status)) then Decide(p, Shaped(raw, url), url, i)
    else Throw(StatusRangeError(ResponseStatus(raw.status)))
  }

  function Finish(s: Step): Result<BareResponse, Exception>
    requires !s.Redirect?
  {
    if s.Return? then Ok(s.response) else Err(s.error)
  }

  /** The redirect loop from hop `i` on, at `url` with header record `h`. */
  function Chain(send: Sender, p: Policy, url: Url, h: Headers, i: nat): (run: Run)
    requires i <= MaxRedirects
    ensures 1 <= |run.hops| <= MaxRedirects + 1 - i
    ensures run.hops[0] == Hop(url, WithHost(h, url.host), send(url, WithHost(h, url.host)))
    decreases MaxRedirects - i
  {
    var h' := WithHost(h, url.host);
    var hop := Hop(url, h', send(url, h'));
    var step := StepOf(p, hop.outcome, url, i);
    if step.Redirect? then
      var rest := Chain(send, p, step.next, h', i + 1);
      Run(rest.result, [hop] + rest.hops, rest.headers)
    else
      Run(Finish(step), [hop], h')
  }

  /** The loop's remaining work `run`, after the hops already made. */
  function After(done: seq<Hop>, run: Run): Run
  {
    Run(run.result, done + run.hops, run.headers)
  }

  lemma AfterAfter(a: seq<Hop>, b: seq<Hop>, run: Run)
    ensures After(a, After(b, run)) == After(a + b, run)
  {
    assert a + (b + run.hops) == (a + b) + run.hops;
  }

  /** A hop that does not redirect ends the loop. */
  lemma ChainStops(send: Sender, p: Policy, url: Url, h: Headers, i: nat)
    requires i <= MaxRedirects
    requires !StepOf(p, send(url, WithHost(h, url.host)), url, i).Redirect?
    ensures Chain(send, p, url, h, i)
         == Run(Finish(StepOf(p, send(url, WithHost(h, url.host)), url, i)),
                [Hop(url, WithHost(h, url.host), send(url, WithHost(h, url.host)))],
                WithHost(h, url.host))
  {
  }

  /** A hop that redirects hands the loop on to the next URL with its record. */
  lemma ChainContinues(send: Sender, p: Policy, url: Url, h: Headers, i: nat)
    requires i <= MaxRedirects
    requires StepOf(p, send(url, WithHost(h, url.host)), url, i).Redirect?
    ensures i < MaxRedirects
    ensures Chain(send, p, url, h, i)
         == After([Hop(url, WithHost(h, url.host), send(url, WithHost(h, url.host)))],
                  Chain(send, p, NextUrl(send, p, url, h, i), WithHost(h, url.host), i + 1))
  {
  }

  /** The loop's bookkeeping after a hop that ends it. */
  lemma AfterStop(send: Sender, p: Policy, done: seq<Hop>, url: Url, h: Headers, i: nat)
    requires i <= MaxRedirects
    requires !StepOf(p, send(url, WithHost(h, url.host)), url, i).Redirect?
    ensures After(done, Chain(send, p, url, h, i))
         == Run(Finish(StepOf(p, send(url, WithHost(h, url.host)), url, i)),
                done + [Hop(url, WithHost(h, url.host), send(url, WithHost(h, url.host)))],
                WithHost(h, url.host))
  {
    ChainStops(send, p, url, h, i);
  }

  /** The loop's bookkeeping after a hop that redirects. */
  lemma AfterContinue(send: Sender, p: Policy, done: seq<Hop>, url: Url, h: Headers, i: nat)
    requires i <= MaxRedirects
    requires StepOf(p, send(url, WithHost(h, url.host)), url, i).Redirect?
    ensures i < MaxRedirects
    ensures After(done, Chain(send, p, url, h, i))
         == After(done + [Hop(url, WithHost(h, url.host), send(url, WithHost(h, url.host)))],
                  Chain(send, p, StepOf(p, send(url, WithHost(h, url.host)), url, i).next,
                        WithHost(h, url.host), i + 1))
  {
    ChainContinues(send, p, url, h, i);
    AfterAfter(done, [Hop(url, WithHost(h, url.host), send(url, WithHost(h, url.host)))],
               Chain(send, p, NextUrl(send, p, url, h, i), WithHost(h, url.host), i + 1));
  }

  /** The two senders answer this request alike. */
  predicate Agree(a: Sender, b: Sender, u: Url, hs: Headers)
  {
    a(u, hs) == b(u, hs)
  }

  /** Two senders that answer every request alike. */
  ghost predicate SameAnswers(a: Sender, b: Sender)
  {
    forall u, hs {:trigger Agree(a, b, u, hs)} :: Agree(a, b, u, hs)
  }

  /** The loop depends on the sender only through its answers. */
  lemma {:induction false} ChainSameSender(a: Sender, b: Sender, p: Policy, url: Url, h: Headers, i: nat)
    requires i <= MaxRedirects && SameAnswers(a, b)
    ensures Chain(a, p, url, h, i) == Chain(b, p, url, h, i)
    decreases 2 * (MaxRedirects - i) + 1
  {
    if StepOf(p, a(url, WithHost(h, url.host)), url, i).Redirect? {
      SameAfterRedirect(a, b, p, url, h, i);
    } else {
      SameLastHop(a, b, p, url, h, i);
    }
  }

  lemma {:induction false} SameAfterRedirect(a: Sender, b: Sender, p: Policy, url: Url, h: Headers, i: nat)
    requires i <= MaxRedirects && SameAnswers(a, b)
    requires StepOf(p, a(url, WithHost(h, url.host)), url, i).Redirect?
    ensures Chain(a, p, url, h, i) == Chain(b, p, url, h, i)
    decreases 2 * (MaxRedirects - i)
  {
    RedirectBelowCap(p, a(url, WithHost(h, url.host)), url, i);
    ChainSameSender(a, b, p, NextUrl(a, p, url, h, i), WithHost(h, url.host), i + 1);
    SameFirstHop(a, b, p, url, h, i);
  }

  /** Only hops before the cap redirect. */
  lemma RedirectBelowCap(p: Policy, outcome: Result<TransferrableResponse, Exception>, url: Url, i: nat)
    requires StepOf(p, outcome, url, i).Redirect?
    ensures i < MaxRedirects
  {
  }

  lemma SameFirstHop(a: Sender, b: Sender, p: Policy, url: Url, h: Headers, i: nat)
    requires i < MaxRedirects && SameAnswers(a, b)
    requires StepOf(p, a(url, WithHost(h, url.host)), url, i).Redirect?
    requires Chain(a, p, NextUrl(a, p, url, h, i), WithHost(h, url.host), i + 1)
          == Chain(b, p, NextUrl(a, p, url, h, i), WithHost(h, url.host), i + 1)
    ensures Chain(a, p, url, h, i) == Chain(b, p, url, h, i)
  {
    assert Agree(a, b, url, WithHost(h, url.host));
    ChainContinues(a, p, url, h, i);
    ChainContinues(b, p, url, h, i);
  }

  lemma SameLastHop(a: Sender, b: Sender, p: Policy, url: Url, h: Headers, i: nat)
    requires i <= MaxRedirects && SameAnswers(a, b)
    requires !StepOf(p, a(url, WithHost(h, url.host)), url, i).Redirect?
    ensures Chain(a, p, url, h, i) == Chain(b, p, url, h, i)
  {
    assert Agree(a, b, url, WithHost(h, url.host));
    ChainStops(a, p, url, h, i);
    ChainStops(b, p, url, h, i);
  }

  /** The hop after `url`, when there is one. */
  function NextUrl(send: Sender, p: Policy, url: Url, h: Headers, i: nat): Url
    requires StepOf(p, send(url, WithHost(h, url.host)), url, i).Redirect?
  {
    StepOf(p, send(url, WithHost(h, url.host)), url, i).next
  }

  /** The hop wrote the host of its own URL under the key the caller's
      record `h` chose, and its record holds both spellings only if `h` did. */
  predicate WritesOwnHost(hop: Hop, h: Headers)
  {
    && HostKey(hop.headers) == HostKey(h)
    && HostKey(h) in hop.headers
    && hop.headers[HostKey(h)] == hop.url.host
    && ("host" in hop.headers && "Host" in hop.headers ==> "host" in h && "Host" in h)
  }

  /** Every hop writes exactly one host header, for its own URL. */
  lemma {:induction false} ChainHostHeader(send: Sender, p: Policy, url: Url, h: Headers, i: nat, k: nat)
    requires i <= MaxRedirects && k < |Chain(send, p, url, h, i).hops|
    ensures WritesOwnHost(Chain(send, p, url, h, i).hops[k], h)
    decreases MaxRedirects - i
  {
    if k == 0 {
      HopWritesOwnHost(h, url, send(url, WithHost(h, url.host)));
    } else {
      ChainLaterHop(send, p, url, h, i, k);
      var next := NextUrl(send, p, url, h, i);
      ChainHostHeader(send, p, next, WithHost(h, url.host), i + 1, k - 1);
      WritesOwnHostCarries(Chain(send, p, next, WithHost(h, url.host), i + 1).hops[k - 1], h, url.host);
    }
  }

  /** Only a redirect makes a second hop, and hop `k` of the loop is hop
      `k - 1` of the loop that starts at the redirect target. */
  lemma ChainLaterHop(send: Sender, p: Policy, url: Url, h: Headers, i: nat, k: nat)
    requires i <= MaxRedirects && 0 < k < |Chain(send, p, url, h, i).hops|
    ensures StepOf(p, send(url, WithHost(h, url.host)), url, i).Redirect?
    ensures i < MaxRedirects
    ensures |Chain(send, p, url, h, i).hops|
         == 1 + |Chain(send, p, NextUrl(send, p, url, h, i), WithHost(h, url.host), i + 1).hops|
    ensures Chain(send, p, url, h, i).hops[k]
         == Chain(send, p, NextUrl(send, p, url, h, i), WithHost(h, url.host), i + 1).hops[k - 1]
  {
    if !StepOf(p, send(url, WithHost(h, url.host)), url, i).Redirect? {
      ChainStops(send, p, url, h, i);
    }
    ChainContinues(send, p, url, h, i);
  }

  /** A hop that writes its own host into the record after an earlier hop
      does so under the key the original record chose. */
  lemma WritesOwnHostCarries(hop: Hop, h: Headers, host: string)
    requires WritesOwnHost(hop, WithHost(h, host))
    ensures WritesOwnHost(hop, h)
  {
    WithHostNeverBoth(h, host);
    WithHostStable(h, host, host);
  }

  lemma HopWritesOwnHost(h: Headers, url: Url, outcome: Result<TransferrableResponse, Exception>)
    ensures WritesOwnHost(Hop(url, WithHost(h, url.host), outcome), h)
  {
    WithHostNeverBoth(h, url.host);
    WithHostStable(h, url.host, url.host);
  }

  /** The last hop is the one that produced the outcome: a returned response
      is the shaped response of that hop, carries its URL as `finalURL`, and
      has no body when its status is one that never carries one. */
  lemma {:induction false} ChainResultFromLastHop(send: Sender, p: Policy, url: Url, h: Headers, i: nat)
    requires i <= MaxRedirects
    ensures var run := Chain(send, p, url, h, i);
      var last := run.hops[|run.hops| - 1];
      run.result.Ok? ==>
        && last.outcome.Ok?
        && ShapeResponse(last.outcome.value, last.url) == Ok(run.result.value)
        && run.result.value.finalURL == Some(last.url.href)
        && (last.outcome.value.status in EmptyBodyStatuses ==> run.result.value.body == Null)
    decreases MaxRedirects - i
  {
    var h' := WithHost(h, url.host);
    var out := send(url, h');
    if StepOf(p, out, url, i).Redirect? {
      var next := NextUrl(send, p, url, h, i);
      ChainContinues(send, p, url, h, i);
      ChainResultFromLastHop(send, p, next, h', i + 1);
      var rest := Chain(send, p, next, h', i + 1);
      assert Chain(send, p, url, h, i).hops[|Chain(send, p, url, h, i).hops| - 1]
          == rest.hops[|rest.hops| - 1];
    } else {
      ChainStops(send, p, url, h, i);
      if out.Ok? && ShapeResponse(out.value, url).Ok? {
        assert StepOf(p, out, url, i) == Decide(p, ShapeResponse(out.value, url).value, url, i);
      }
    }
  }

  /** Consecutive hops are joined by a followed redirect. */
  predicate Linked(p: Policy, a: Hop, b: Hop)
  {
    && p.mode == Follow
    && a.outcome.Ok?
    && ResponseStatus(a.outcome.value.status) in RedirectStatuses
    && p.location(a.outcome.value.headers).Some?
    && p.resolve(p.location(a.outcome.value.headers).value, a.url) == Some(b.url)
  }

  /** Every hop is linked to the one after it. */
  predicate AllLinked(p: Policy, hops: seq<Hop>)
  {
    forall k :: 0 <= k < |hops| - 1 ==> Linked(p, hops[k], hops[k + 1])
  }

  /** Each hop after the first goes to the `Location` of the previous hop's
      redirect response, resolved against the previous hop's URL. */
  lemma {:induction false} ChainHopsLinked(send: Sender, p: Policy, url: Url, h: Headers, i: nat)
    requires i <= MaxRedirects
    ensures AllLinked(p, Chain(send, p, url, h, i).hops)
    decreases MaxRedirects - i
  {
    var h' := WithHost(h, url.host);
    var first := Hop(url, h', send(url, h'));
    if StepOf(p, first.outcome, url, i).Redirect? {
      ChainContinues(send, p, url, h, i);
      var next := NextUrl(send, p, url, h, i);
      ChainHopsLinked(send, p, next, h', i + 1);
      var rest := Chain(send, p, next, h', i + 1);
      RedirectLinks(p, first, rest.hops[0], i);
      ConsLinked(p, first, rest.hops);
    } else {
      ChainStops(send, p, url, h, i);
    }
  }

  lemma ConsLinked(p: Policy, hop: Hop, rest: seq<Hop>)
    requires rest != [] && Linked(p, hop, rest[0]) && AllLinked(p, rest)
    ensures AllLinked(p, [hop] + rest)
  {
    var hops := [hop] + rest;
    forall k | 0 <= k < |hops| - 1
      ensures Linked(p, hops[k], hops[k + 1])
    {
      if k > 0 {
        assert hops[k] == rest[k - 1] && hops[k + 1] == rest[k];
      }
    }
  }

  /** A hop whose outcome redirects is linked to any hop at its target. */
  lemma RedirectLinks(p: Policy, a: Hop, b: Hop, i: nat)
    requires StepOf(p, a.outcome, a.url, i).Redirect? && b.url == StepOf(p, a.outcome, a.url, i).next
    ensures Linked(p, a, b)
  {
  }

  /** A first response whose status is not a redirect ends the loop after
      one request: it is returned as shaped, or, when the `Response`
      constructor refuses its status, that `RangeError` is thrown. */
  lemma ChainNoRedirect(send: Sender, p: Policy, url: Url, h: Headers)
    requires send(url, WithHost(h, url.host)).Ok?
    requires ResponseStatus(send(url, WithHost(h, url.host)).value.status) !in RedirectStatuses
    ensures Chain(send, p, url, h, 0).result == ShapeResponse(send(url, WithHost(h, url.host)).value, url)
    ensures |Chain(send, p, url, h, 0).hops| == 1
  {
  }

  /** A response whose status the `Response` constructor refuses ends the
      loop at that hop with the `RangeError`, whatever the mode. */
  lemma ChainStatusOutOfRange(send: Sender, p: Policy, url: Url, h: Headers, i: nat)
    requires i <= MaxRedirects && send(url, WithHost(h, url.host)).Ok?
    requires !InRange(ResponseStatus(send(url, WithHost(h, url.host)).value.status))
    ensures Chain(send, p, url, h, i).result
         == Err(StatusRangeError(ResponseStatus(send(url, WithHost(h, url.host)).value.status)))
    ensures |Chain(send, p, url, h, i).hops| == 1
  {
    ChainStops(send, p, url, h, i);
  }

  /** A redirect status is handed back only in `manual` mode. */
  lemma {:induction false} ChainRedirectOnlyManual(send: Sender, p: Policy, url: Url, h: Headers, i: nat)
    requires i <= MaxRedirects
    ensures var run := Chain(send, p, url, h, i);
      run.result.Ok? && run.result.value.status in RedirectStatuses ==> p.mode == Manual
    decreases MaxRedirects - i
  {
    var h' := WithHost(h, url.host);
    if StepOf(p, send(url, h'), url, i).Redirect? {
      ChainContinues(send, p, url, h, i);
      ChainRedirectOnlyManual(send, p, NextUrl(send, p, url, h, i), h', i + 1);
    } else {
      ChainStops(send, p, url, h, i);
    }
  }

  /** The hop got a redirect status carrying a `Location`. */
  predicate RedirectsWithLocation(p: Policy, outcome: Result<TransferrableResponse, Exception>)
  {
    outcome.Ok? && ResponseStatus(outcome.value.status) in RedirectStatuses && p.location(outcome.value.headers).Some?
  }

  predicate Resolves(p: Policy, l: string, u: Url)
  {
    p.resolve(l, u).Some?
  }

  /** In `follow` mode, every request is answered by a redirect with a
      `Location` that resolves. */
  ghost predicate AlwaysRedirects(send: Sender, p: Policy)
  {
    && p.mode == Follow
    && (forall u, hs {:trigger RedirectsWithLocation(p, send(u, hs))} :: RedirectsWithLocation(p, send(u, hs)))
    && (forall l, u :: Resolves(p, l, u))
  }

  /** The loop from hop `i` on gave up with "Failed to fetch" after its
      remaining `21 - i` requests. */
  predicate Capped(run: Run, i: nat)
  {
    run.result == Err(FailedToFetch) && |run.hops| == MaxRedirects + 1 - i
  }

  /** A server that redirects forever, always with a resolvable `Location`,
      costs exactly 21 requests in `follow` mode and ends in "Failed to fetch". */
  lemma {:induction false} ChainRedirectCap(send: Sender, p: Policy, url: Url, h: Headers, i: nat)
    requires i <= MaxRedirects && AlwaysRedirects(send, p)
    ensures Capped(Chain(send, p, url, h, i), i)
    decreases MaxRedirects - i
  {
    if i < MaxRedirects {
      CapStep(send, p, url, WithHost(h, url.host), i);
      ChainRedirectCap(send, p, NextUrl(send, p, url, h, i), WithHost(h, url.host), i + 1);
      CapRedirect(send, p, url, h, i);
    } else {
      CapStop(send, p, url, h, i);
    }
  }

  lemma CapRedirect(send: Sender, p: Policy, url: Url, h: Headers, i: nat)
    requires i < MaxRedirects && StepOf(p, send(url, WithHost(h, url.host)), url, i).Redirect?
    requires Capped(Chain(send, p, NextUrl(send, p, url, h, i), WithHost(h, url.host), i + 1), i + 1)
    ensures Capped(Chain(send, p, url, h, i), i)
  {
    ChainContinues(send, p, url, h, i);
  }

  lemma CapStop(send: Sender, p: Policy, url: Url, h: Headers, i: nat)
    requires i == MaxRedirects && AlwaysRedirects(send, p)
    ensures Capped(Chain(send, p, url, h, i), i)
  {
    CapStep(send, p, url, WithHost(h, url.host), i);
    ChainStops(send, p, url, h, i);
  }

  /** One hop of a server that always redirects with a resolvable `Location`. */
  lemma CapStep(send: Sender, p: Policy, url: Url, h: Headers, i: nat)
    requires AlwaysRedirects(send, p)
    ensures StepOf(p, send(url, h), url, i).Redirect? <==> i < MaxRedirects
    ensures i >= MaxRedirects ==> StepOf(p, send(url, h), url, i) == Throw(FailedToFetch)
  {
    var out := send(url, h);
    assert RedirectsWithLocation(p, out);
    assert Resolves(p, p.location(out.value.headers).value, url);
  }

  /** The loop's bookkeeping, as a client loop keeps it: `whole` is the run
      from the start, `done` the hops already made. A hop that does not
      redirect completes it. */
  lemma LoopStops(send: Sender, p: Policy, whole: Run, done: seq<Hop>, url: Url, h: Headers, i: nat)
    requires i <= MaxRedirects
    requires whole == After(done, Chain(send, p, url, h, i))
    requires !StepOf(p, send(url, WithHost(h, url.host)), url, i).Redirect?
    ensures whole.result == Finish(StepOf(p, send(url, WithHost(h, url.host)), url, i))
    ensures whole.headers == WithHost(h, url.host)
    ensures whole.hops == done + [Hop(url, WithHost(h, url.host), send(url, WithHost(h, url.host)))]
  {
    AfterStop(send, p, done, url, h, i);
  }

  /** A hop that redirects moves one hop from the remaining run to `done`. */
  lemma LoopContinues(send: Sender, p: Policy, whole: Run, done: seq<Hop>, url: Url, h: Headers, i: nat)
    requires i <= MaxRedirects
    requires whole == After(done, Chain(send, p, url, h, i))
    requires StepOf(p, send(url, WithHost(h, url.host)), url, i).Redirect?
    ensures i < MaxRedirects
    ensures whole == After(done + [Hop(url, WithHost(h, url.host), send(url, WithHost(h, url.host)))],
                           Chain(send, p, StepOf(p, send(url, WithHost(h, url.host)), url, i).next,
                                 WithHost(h, url.host), i + 1))
  {
    AfterContinue(send, p, done, url, h, i);
  }

  lemma SnocAssoc<T>(a: seq<T>, b: seq<T>, x: T)
    ensures (a + b) + [x] == a + (b + [x])
  {
  }

  /** What a client loop does with how a hop's request settled, branch by
      branch: a rejected request or a refused status throws; otherwise the
      shaped response is returned, thrown on or followed, by status and mode. */
  method Judge(resp: Result<TransferrableResponse, Exception>, current: Url, p: Policy, i: nat)
    returns (step: Step)
    ensures step == StepOf(p, resp, current, i)
  {
    if resp.Err? {
      return Throw(resp.error);
    }
    var shaped := ShapeResponse(resp.value, current);
    if shaped.Err? {
      return Throw(shaped.error);
    }
    var response := shaped.value;
    if response.status in RedirectStatuses {
      match p.mode
      case Follow =>
        var location := p.location(response.headers);
        if MaxRedirects > i && location.Some? {
          var next := p.resolve(location.value, current);
          if next.None? {
            return Throw(InvalidUrl);
          }
          return Redirect(next.value);
        } else {
          return Throw(FailedToFetch);
        }
      case ErrorMode =>
        return Throw(FailedToFetch);
      case Manual =>
        return Return(response);
    } else {
      return Return(response);
    }
  }
}
