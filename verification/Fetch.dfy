/** The redirect loop of the host's safe fetcher, against any resolver and any
    transport. */
module Fetch {
  import opened Wrappers
  import opened FetchPolicy
  import Text

  datatype HttpMethod = Get | Head

  datatype FetchError = Network | PolicyError | ResponseTooLarge | Timeout | TooManyRedirects

  type Headers = seq<(string, string)>

  datatype FetchRequest = FetchRequest(verb: string, url: string, headers: Headers)

  datatype TransportRequest = TransportRequest(
    url: Url,
    verb: HttpMethod,
    headers: Headers,
    addrs: seq<Ip>,
    connectTimeout: nat,
    timeout: nat,
    maxResponseBytes: nat)

  datatype TransportResponse = TransportResponse(status: nat, location: Option<string>, body: seq<bv8>)

  datatype FetchResponse = FetchResponse(status: nat, finalUrl: string, bodyBase64: string)

  /** An answer and how long it took. */
  datatype Timed<T> = Timed(value: T, took: nat)

  /** Everything outside the loop: the libraries, the resolver and the
      transport. The last two may answer each round as they like. */
  datatype World = World(
    parse: string -> Option<Url>,
    join: (Url, string) -> Option<Url>,
    validHeader: (string, string) -> bool,
    encode: seq<bv8> -> string,
    resolve: (nat, string, nat, nat) -> Timed<Result<seq<Ip>, FetchError>>,
    send: (nat, TransportRequest) -> Timed<Result<TransportResponse, FetchError>>)

  /** The seams return within the time they are given. */
  ghost predicate Punctual(w: World) {
    && (forall n: nat, host: string, port: nat, timeout: nat :: w.resolve(n, host, port, timeout).took <= timeout)
    && (forall n: nat, q: TransportRequest :: w.send(n, q).took <= q.timeout)
  }

  function ParseMethod(raw: string): Option<HttpMethod> {
    if Text.Lower(raw) == "get" then Some(Get)
    else if Text.Lower(raw) == "head" then Some(Head)
    else None
  }

  predicate DisallowedHeader(name: string) {
    Text.Lower(name) in ["authorization", "cookie", "proxy-authorization", "set-cookie", "host", "connection",
                         "transfer-encoding", "content-length"]
  }

  predicate HeadersAllowed(w: World, headers: Headers) {
    forall i :: 0 <= i < |headers| ==>
      w.validHeader(headers[i].0, headers[i].1) && !DisallowedHeader(headers[i].0)
  }

  predicate IsRedirect(status: nat) {
    status == 301 || status == 302 || status == 303 || status == 307 || status == 308
  }

  function Min(a: nat, b: nat): nat {
    if a <= b then a else b
  }

  /** `remaining_timeout`. */
  function Remaining(elapsed: nat, total: nat): Option<nat> {
    if elapsed <= total then Some(total - elapsed) else None
  }

  // ---------------------------------------------------------------------
  // What a fetch may do
  // ---------------------------------------------------------------------

  predicate Accepted(w: World, request: FetchRequest) {
    ParseMethod(request.verb).Some? && HeadersAllowed(w, request.headers) && w.parse(request.url).Some?
  }

  /** A request that policy allows to leave the host. */
  predicate Permitted(q: TransportRequest, request: FetchRequest, policy: Policy, devLoopback: bool) {
    && UrlAllowed(q.url, policy) && q.url.port.Some? && AddressesAllowed(q.addrs, devLoopback)
    && Some(q.verb) == ParseMethod(request.verb) && q.headers == request.headers
    && q.timeout <= policy.totalTimeout && q.connectTimeout <= Min(policy.connectTimeout, q.timeout)
    && q.maxResponseBytes == policy.maxResponseBytes
  }

  /** The addresses of request `n` are what the resolver gave for its host. */
  ghost predicate Resolved(w: World, n: nat, q: TransportRequest) {
    && q.url.host.Some? && q.url.port.Some?
    && exists t: nat :: w.resolve(n, q.url.host.value, q.url.port.value, t).value == Ok(q.addrs)
  }

  /** The transport answered request `n` with a redirect to `next`. */
  predicate RedirectsTo(w: World, n: nat, q: TransportRequest, next: Url) {
    var a := w.send(n, q).value;
    && a.Ok? && |a.value.body| <= q.maxResponseBytes && IsRedirect(a.value.status)
    && a.value.location.Some? && w.join(q.url, a.value.location.value) == Some(next)
  }

  /** Each request goes where the answer to the one before it pointed. */
  predicate Linked(w: World, first: Url, sent: seq<TransportRequest>) {
    && (sent != [] ==> sent[0].url == first)
    && forall i :: 0 < i < |sent| ==> RedirectsTo(w, i - 1, sent[i - 1], sent[i].url)
  }

  /** Where the loop goes after the requests sent so far. */
  predicate Leads(w: World, first: Url, sent: seq<TransportRequest>, next: Url) {
    if sent == [] then next == first else RedirectsTo(w, |sent| - 1, sent[|sent| - 1], next)
  }

  /** The response is the transport's answer to the last request sent. */
  predicate Answers(w: World, n: nat, q: TransportRequest, r: FetchResponse) {
    var a := w.send(n, q).value;
    && a.Ok? && !IsRedirect(a.value.status) && |a.value.body| <= q.maxResponseBytes
    && r == FetchResponse(a.value.status, q.url.text, w.encode(a.value.body))
  }

  ghost predicate ResolvesBadly(w: World, n: nat, next: Url, devLoopback: bool, e: FetchError)
    requires next.host.Some? && next.port.Some?
  {
    exists t: nat :: var a := w.resolve(n, next.host.value, next.port.value, t).value;
      a == Err(e) || (a.Ok? && !AddressesAllowed(a.value, devLoopback) && e == PolicyError)
  }

  /** Why the next request was not sent. */
  ghost predicate Blocked(w: World, n: nat, next: Url, policy: Policy, devLoopback: bool, elapsed: nat, e: FetchError) {
    || (e == Timeout && elapsed > policy.totalTimeout)
    || (e == PolicyError && (!UrlAllowed(next, policy) || next.port.None?))
    || (next.host.Some? && next.port.Some? && ResolvesBadly(w, n, next, devLoopback, e))
  }

  /** Why the answer to the last request ends the fetch in an error. */
  predicate BadAnswer(w: World, n: nat, q: TransportRequest, policy: Policy, e: FetchError) {
    var a := w.send(n, q).value;
    || a == Err(e)
    || (a.Ok? && |a.value.body| > policy.maxResponseBytes && e == ResponseTooLarge)
    || (a.Ok? && IsRedirect(a.value.status) && n == policy.maxRedirects && e == TooManyRedirects)
    || (a.Ok? && IsRedirect(a.value.status) && a.value.location.None? && e == PolicyError)
    || (a.Ok? && IsRedirect(a.value.status) && a.value.location.Some?
          && w.join(q.url, a.value.location.value).None? && e == PolicyError)
  }

  ghost predicate StoppedBefore(
    w: World, first: Url, policy: Policy, devLoopback: bool, sent: seq<TransportRequest>, elapsed: nat, e: FetchError)
  {
    && |sent| <= policy.maxRedirects
    && exists next :: Leads(w, first, sent, next) && Blocked(w, |sent|, next, policy, devLoopback, elapsed, e)
  }

  /** Every error has one of the policy's reasons. */
  ghost predicate HasCause(
    w: World, request: FetchRequest, policy: Policy, devLoopback: bool, sent: seq<TransportRequest>, elapsed: nat,
    e: FetchError)
  {
    if !Accepted(w, request) then sent == [] && e == PolicyError
    else
      || StoppedBefore(w, w.parse(request.url).value, policy, devLoopback, sent, elapsed, e)
      || (sent != [] && BadAnswer(w, |sent| - 1, sent[|sent| - 1], policy, e))
  }

  ghost predicate AllPermitted(
    w: World, request: FetchRequest, policy: Policy, devLoopback: bool, sent: seq<TransportRequest>)
  {
    forall i :: 0 <= i < |sent| ==>
      Permitted(sent[i], request, policy, devLoopback) && Resolved(w, i, sent[i])
  }

  /** One round up to the send: the request to make, or the error. */
  method Prepare(
    w: World, request: FetchRequest, verb: HttpMethod, policy: Policy, devLoopback: bool, url: Url, round: nat,
    elapsed: nat)
    returns (r: Result<TransportRequest, FetchError>, now: nat)
    requires ParseMethod(request.verb) == Some(verb)
    ensures elapsed <= now
    ensures r.Ok? ==>
              && Permitted(r.value, request, policy, devLoopback) && Resolved(w, round, r.value)
              && r.value.url == url && now + r.value.timeout == policy.totalTimeout
    ensures r.Err? ==> Blocked(w, round, url, policy, devLoopback, now, r.error)
    ensures Punctual(w) && elapsed <= policy.totalTimeout ==> now <= policy.totalTimeout
  {
    now := elapsed;
    var remaining := Remaining(now, policy.totalTimeout);
    if remaining.None? {
      return Err(Timeout), now;
    }
    if !UrlAllowed(url, policy) || url.port.None? {
      return Err(PolicyError), now;
    }
    var dnsTimeout := Min(policy.connectTimeout, remaining.value);
    var answer := w.resolve(round, url.host.value, url.port.value, dnsTimeout);
    now := now + answer.took;
    if answer.value.Err? {
      return Err(answer.value.error), now;
    }
    var addrs := answer.value.value;
    if !AddressesAllowed(addrs, devLoopback) {
      assert w.resolve(round, url.host.value, url.port.value, dnsTimeout).value == Ok(addrs);
      return Err(PolicyError), now;
    }
    remaining := Remaining(now, policy.totalTimeout);
    if remaining.None? {
      return Err(Timeout), now;
    }
    r := Ok(TransportRequest(url, verb, request.headers, addrs, Min(policy.connectTimeout, remaining.value),
                             remaining.value, policy.maxResponseBytes));
  }

  /** What one answer makes of the fetch. */
  datatype Round = Next(url: Url) | Final(response: FetchResponse) | Failed(error: FetchError)

  /** The rest of a round: send the request and judge the answer. */
  method Exchange(w: World, policy: Policy, q: TransportRequest, round: nat) returns (r: Round, took: nat)
    requires q.maxResponseBytes == policy.maxResponseBytes
    ensures r.Next? ==> round != policy.maxRedirects && RedirectsTo(w, round, q, r.url)
    ensures r.Final? ==> Answers(w, round, q, r.response)
    ensures r.Failed? ==> BadAnswer(w, round, q, policy, r.error)
    ensures Punctual(w) ==> took <= q.timeout
  {
    var answer := w.send(round, q);
    took := answer.took;
    if answer.value.Err? {
      return Failed(answer.value.error), took;
    }
    var response := answer.value.value;
    if |response.body| > policy.maxResponseBytes {
      return Failed(ResponseTooLarge), took;
    }
    if !IsRedirect(response.status) {
      return Final(FetchResponse(response.status, q.url.text, w.encode(response.body))), took;
    }
    if round == policy.maxRedirects {
      return Failed(TooManyRedirects), took;
    }
    if response.location.None? {
      return Failed(PolicyError), took;
    }
    var joined := w.join(q.url, response.location.value);
    r := if joined.Some? then Next(joined.value) else Failed(PolicyError);
  }

  /** The requests so far form a trail of permitted hops that leads to `next`. */
  ghost predicate Trail(
    w: World, request: FetchRequest, policy: Policy, devLoopback: bool, first: Url, sent: seq<TransportRequest>)
  {
    AllPermitted(w, request, policy, devLoopback, sent) && Linked(w, first, sent)
  }

  lemma PermittedGrows(
    w: World, request: FetchRequest, policy: Policy, devLoopback: bool, sent: seq<TransportRequest>,
    q: TransportRequest)
    requires AllPermitted(w, request, policy, devLoopback, sent)
    requires Permitted(q, request, policy, devLoopback) && Resolved(w, |sent|, q)
    ensures AllPermitted(w, request, policy, devLoopback, sent + [q])
  {
  }

  lemma LinkedGrows(w: World, first: Url, sent: seq<TransportRequest>, q: TransportRequest)
    requires Linked(w, first, sent) && Leads(w, first, sent, q.url)
    ensures Linked(w, first, sent + [q])
  {
    var all := sent + [q];
    forall i | 0 < i < |all|
      ensures RedirectsTo(w, i - 1, all[i - 1], all[i].url)
    {
      assert all[i - 1] == sent[i - 1];
    }
  }

  lemma TrailGrows(
    w: World, request: FetchRequest, policy: Policy, devLoopback: bool, first: Url, sent: seq<TransportRequest>,
    q: TransportRequest)
    requires Trail(w, request, policy, devLoopback, first, sent) && Leads(w, first, sent, q.url)
    requires Permitted(q, request, policy, devLoopback) && Resolved(w, |sent|, q)
    ensures Trail(w, request, policy, devLoopback, first, sent + [q])
  {
    PermittedGrows(w, request, policy, devLoopback, sent, q);
    LinkedGrows(w, first, sent, q);
  }

  /** `fetch_with_address_policy`. Whatever the resolver and transport answer:
      at most one request more than the redirect limit leaves, each one
      permitted and each where the last answer pointed; a success is the
      transport's answer to the last of them; every error has a cause; and if
      both seams are punctual the fetch ends within its total timeout. */
  method FetchWithAddressPolicy(w: World, request: FetchRequest, policy: Policy, devLoopback: bool)
    returns (r: Result<FetchResponse, FetchError>, sent: seq<TransportRequest>, elapsed: nat)
    ensures |sent| <= policy.maxRedirects + 1
    ensures sent != [] ==> Accepted(w, request)
    ensures sent != [] ==> Trail(w, request, policy, devLoopback, w.parse(request.url).value, sent)
    ensures r.Ok? ==> sent != [] && Answers(w, |sent| - 1, sent[|sent| - 1], r.value)
    ensures r.Err? ==> HasCause(w, request, policy, devLoopback, sent, elapsed, r.error)
    ensures Punctual(w) ==> elapsed <= policy.totalTimeout
  {
    sent, elapsed := [], 0;
    var verb := ParseMethod(request.verb);
    if verb.None? || !HeadersAllowed(w, request.headers) {
      return Err(PolicyError), sent, elapsed;
    }
    var parsed := w.parse(request.url);
    if parsed.None? {
      return Err(PolicyError), sent, elapsed;
    }
    var url := parsed.value;
    var redirectCount := 0;
    // The source counts to `max_redirects`; its last round always returns.
    while true
      invariant |sent| == redirectCount <= policy.maxRedirects
      invariant Trail(w, request, policy, devLoopback, parsed.value, sent)
      invariant Leads(w, parsed.value, sent, url)
      invariant Punctual(w) ==> elapsed <= policy.totalTimeout
      decreases policy.maxRedirects - redirectCount
    {
      var prepared;
      prepared, elapsed := Prepare(w, request, verb.value, policy, devLoopback, url, redirectCount, elapsed);
      if prepared.Err? {
        assert StoppedBefore(w, parsed.value, policy, devLoopback, sent, elapsed, prepared.error);
        return Err(prepared.error), sent, elapsed;
      }
      TrailGrows(w, request, policy, devLoopback, parsed.value, sent, prepared.value);
      sent := sent + [prepared.value];
      var round, took := Exchange(w, policy, prepared.value, redirectCount);
      elapsed := elapsed + took;
      match round
      case Next(next) =>
        url, redirectCount := next, redirectCount + 1;
      case Final(response) =>
        return Ok(response), sent, elapsed;
      case Failed(error) =>
        return Err(error), sent, elapsed;
    }
  }
}
