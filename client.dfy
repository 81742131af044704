/** The delivery engine: client configuration (backoff sequence, user agent,
    endpoint URI, builder), response classification, request construction,
    and the per-batch send loop with retries, waits and splitting. */
module Delivery {
  import opened Common
  import opened Numeric
  import opened Text
  import opened Attribute
  import opened Sendable

  const TRACE_API_PATH: string := "trace/v1"
  const DEFAULT_TRACE_HOST: string := "trace-api.newrelic.com"
  const USER_AGENT_PREFIX: string := "NewRelic-Rust-TelemetrySDK/"

  // ---------------------------------------------------------------------
  // Backoff sequence (durations are whole seconds)

  function Pow2(k: nat): (p: nat)
    ensures p >= 1
  {
    if k == 0 then 1 else 2 * Pow2(k - 1)
  }

  /** Entry `k` of the backoff sequence: no wait at 0, `factor * 2^(k-1)` after. */
  function BackoffDelay(factor: nat, k: nat): nat {
    if k == 0 then 0 else factor * Pow2(k - 1)
  }

  /** The configurations for which computing the sequence does not panic:
      `2^(k-1)` must fit 32 bits and `factor * 2^(k-1)` seconds must fit the
      64-bit seconds of a duration, for every entry `k`. */
  predicate BackoffFits(factor: u64, retriesMax: u32) {
    retriesMax <= 33 && (retriesMax >= 2 ==> factor as nat * Pow2(retriesMax as nat - 2) < U64_LIMIT)
  }

  /** The first `n` delays, built one entry at a time. */
  function BackoffPrefix(factor: nat, n: nat): (s: seq<nat>)
    ensures |s| == n
    ensures forall k :: 0 <= k < n ==> s[k] == BackoffDelay(factor, k)
  {
    if n == 0 then [] else BackoffPrefix(factor, n - 1) + [BackoffDelay(factor, n - 1)]
  }

  /** One delay per allowed request: `retriesMax` entries, the first 0 and
      each later one `factor * 2^(k-1)`. */
  function BackoffSequence(factor: u64, retriesMax: u32): (s: seq<nat>)
    requires BackoffFits(factor, retriesMax)
    ensures |s| == retriesMax as int
    ensures forall k :: 0 <= k < |s| ==> s[k] == BackoffDelay(factor as nat, k)
  {
    BackoffPrefix(factor as nat, retriesMax as nat)
  }

  /** The sequence as a recurrence: it starts at 0, then `factor`, and each
      later delay doubles the one before. */
  lemma BackoffDoubles(factor: u64, retriesMax: u32, k: nat)
    requires BackoffFits(factor, retriesMax)
    requires k + 1 < retriesMax as int
    ensures var s := BackoffSequence(factor, retriesMax);
      s[0] == 0 && s[1] == factor as nat && (k >= 1 ==> s[k + 1] == 2 * s[k])
  {
    var s := BackoffSequence(factor, retriesMax);
    if k >= 1 {
      assert s[k + 1] == factor as nat * (2 * Pow2(k - 1));
    }
  }

  /** The default sequence, a custom one, and the empty one of a client
      configured with no retries. */
  lemma BackoffExamples()
    ensures BackoffFits(5, 8) && BackoffSequence(5, 8) == [0, 5, 10, 20, 40, 80, 160, 320]
    ensures BackoffFits(2, 6) && BackoffSequence(2, 6) == [0, 2, 4, 8, 16, 32]
    ensures BackoffFits(5, 0) && BackoffSequence(5, 0) == []
  {
    assert Pow2(6) == 64;
    var d := BackoffSequence(5, 8);
    assert d[7] == 320;
    var c := BackoffSequence(2, 6);
    assert c[5] == 32;
  }

  // ---------------------------------------------------------------------
  // User agent and endpoint

  /** `NewRelic-Rust-TelemetrySDK/<version>`, followed by ` <product>/<version>`
      when product information is configured. */
  function UserAgent(version: string, productInfo: Option<(string, string)>): (ua: string)
    ensures |ua| >= |USER_AGENT_PREFIX| + |version|
    ensures ua[..|USER_AGENT_PREFIX| + |version|] == USER_AGENT_PREFIX + version
    ensures productInfo.None? ==> |ua| == |USER_AGENT_PREFIX| + |version|
    ensures productInfo.Some? ==>
      ua[|USER_AGENT_PREFIX| + |version|..] == " " + productInfo.value.0 + "/" + productInfo.value.1
  {
    var suffix := match productInfo
      case Some((product, productVersion)) => " " + product + "/" + productVersion
      case None => "";
    USER_AGENT_PREFIX + version + suffix
  }

  datatype Endpoint = Endpoint(host: string, port: Option<u16>, path: string)

  function Scheme(useTls: bool): string {
    if useTls then "https" else "http"
  }

  function PortText(port: Option<u16>): string {
    match port
    case Some(p) => ":" + NatToString(p as nat)
    case None => ""
  }

  /** The URI text `scheme://host[:port]/path`: it opens with the scheme
      and `://`, closes with `/` and the path, and holds the host and the
      optional port in between. */
  function UriText(e: Endpoint, useTls: bool): (u: string)
    ensures var head := |Scheme(useTls)| + 3;
      var tail := |e.path| + 1;
      && |u| == head + |e.host| + |PortText(e.port)| + tail
      && u[..head] == Scheme(useTls) + "://"
      && u[head..|u| - tail] == e.host + PortText(e.port)
      && u[|u| - tail..] == "/" + e.path
  {
    var u := Scheme(useTls) + "://" + e.host + PortText(e.port) + "/" + e.path;
    assert u == (Scheme(useTls) + "://") + (e.host + PortText(e.port)) + ("/" + e.path);
    u
  }

  /** TLS changes the scheme and nothing else. */
  lemma TlsOnlyChangesScheme(e: Endpoint)
    ensures UriText(e, true) == "https" + UriText(e, false)[4..]
  {
    var plain := UriText(e, false);
    assert plain[..7] == "http://";
    assert UriText(e, true)[8..] == plain[7..];
  }

  /** The endpoint's URI, or an error when the composed text is not a URI.
      `parses` is the URI parser's verdict on a text. */
  function ResolveUri(e: Endpoint, useTls: bool, parses: string -> bool): (r: Result<string>)
    ensures r.Ok? <==> parses(UriText(e, useTls))
    ensures r.Ok? ==> r.value == UriText(e, useTls)
  {
    var text := UriText(e, useTls);
    if parses(text) then Ok(text) else Err("invalid URI")
  }

  /** The URIs of the source's own examples: host `host`, port 80, the
      trace path, with and without TLS. */
  lemma UriWithPort(useTls: bool)
    ensures UriText(Endpoint("host", Some(80), TRACE_API_PATH), useTls)
      == (if useTls then "https" else "http") + "://host:80/trace/v1"
  {
    assert NatToString(80) == "80";
    var rest := "://" + "host" + ":80" + "/" + "trace/v1";
    assert rest == "://host:80/trace/v1";
    assert UriText(Endpoint("host", Some(80), TRACE_API_PATH), useTls) == Scheme(useTls) + "://" + "host" + ":80" + "/" + "trace/v1";
  }

  /** Without a port the URI has no `:port` part. */
  lemma UriWithoutPort(useTls: bool)
    ensures UriText(Endpoint("host", None, TRACE_API_PATH), useTls)
      == (if useTls then "https" else "http") + "://host/trace/v1"
  {
    assert PortText(None) == "";
  }

  // ---------------------------------------------------------------------
  // Builder and client

  /** An immutable, ready-to-use client: what every request is built from. */
  datatype Client = Client(apiKey: string, userAgent: string, backoff: seq<nat>, endpoint: string)

  /** The builder's settings, as a value. */
  datatype Settings = Settings(
    apiKey: string,
    backoffFactor: u64,
    retriesMax: u32,
    endpointTraces: Endpoint,
    productInfo: Option<(string, string)>,
    blockingQueueMax: nat,
    useTls: bool)

  class ClientBuilder {
    var apiKey: string
    var backoffFactor: u64
    var retriesMax: u32
    var endpointTraces: Endpoint
    var productInfo: Option<(string, string)>
    var blockingQueueMax: nat
    var useTls: bool

    function View(): Settings
      reads this
    {
      Settings(apiKey, backoffFactor, retriesMax, endpointTraces, productInfo, blockingQueueMax, useTls)
    }

    /** Defaults: a 5 s backoff factor, 8 requests, the public trace host on
        the default port, no product information, 100 queued batches, TLS. */
    constructor (apiKey: string)
      ensures View() == Settings(apiKey, 5, 8, Endpoint(DEFAULT_TRACE_HOST, None, TRACE_API_PATH), None, 100, true)
    {
      this.apiKey := apiKey;
      backoffFactor := 5;
      retriesMax := 8;
      endpointTraces := Endpoint(DEFAULT_TRACE_HOST, None, TRACE_API_PATH);
      productInfo := None;
      blockingQueueMax := 100;
      useTls := true;
    }

    method BackoffFactor(factor: u64)
      modifies this
      ensures View() == old(View()).(backoffFactor := factor)
    {
      backoffFactor := factor;
    }

    method RetriesMax(retries: u32)
      modifies this
      ensures View() == old(View()).(retriesMax := retries)
    {
      retriesMax := retries;
    }

    /** The trace endpoint: a host and optional port; the path stays the
        trace API path. */
    method EndpointTraces(url: string, port: Option<u16>)
      modifies this
      ensures View() == old(View()).(endpointTraces := Endpoint(url, port, TRACE_API_PATH))
    {
      endpointTraces := Endpoint(url, port, TRACE_API_PATH);
    }

    method ProductInfo(product: string, version: string)
      modifies this
      ensures View() == old(View()).(productInfo := Some((product, version)))
    {
      productInfo := Some((product, version));
    }

    method BlockingQueueMax(queueMax: nat)
      modifies this
      ensures View() == old(View()).(blockingQueueMax := queueMax)
    {
      blockingQueueMax := queueMax;
    }

    method Tls(tls: bool)
      modifies this
      ensures View() == old(View()).(useTls := tls)
    {
      useTls := tls;
    }

    /** Build a client: fails exactly when the endpoint does not resolve to a
        URI; otherwise the client holds the key, the user agent, the backoff
        sequence and the URI. `version` is the crate version. */
    method Build(version: string, parses: string -> bool) returns (r: Result<Client>)
      requires BackoffFits(backoffFactor, retriesMax)
      ensures r.Ok? <==> parses(UriText(endpointTraces, useTls))
      ensures r.Ok? ==>
        && r.value.apiKey == apiKey
        && r.value.userAgent == UserAgent(version, productInfo)
        && r.value.backoff == BackoffSequence(backoffFactor, retriesMax)
        && r.value.endpoint == UriText(endpointTraces, useTls)
    {
      var userAgent := UserAgent(version, productInfo);
      var backoff := BackoffSequence(backoffFactor, retriesMax);
      var uri := ResolveUri(endpointTraces, useTls, parses);
      match uri
      case Err(e) => r := Err(e);
      case Ok(u) => r := Ok(Client(apiKey, userAgent, backoff, u));
    }
  }

  // ---------------------------------------------------------------------
  // Response classification

  /** An HTTP status code as the HTTP library represents one. */
  type StatusCode = x: int | 100 <= x <= 999 witness 200

  /** What to do with a batch after a response. */
  datatype SendableState = Done | Retry(delay: Option<nat>) | Split

  predicate IsSuccess(status: StatusCode) {
    200 <= status <= 299
  }

  /** Client errors that retrying cannot fix: the batch is dropped. */
  predicate IsDropCode(status: StatusCode) {
    status == 400 || status == 401 || status == 403 || status == 404
    || status == 405 || status == 409 || status == 410 || status == 411
  }

  /** The `Retry-After` header read as a whole number of seconds (the
      delay-seconds form only): an error when it is missing or is not a `u64`. */
  function ExtractRetryAfter(header: Option<string>): (r: Result<nat>)
    ensures r.Ok? <==> header.Some? && ParseU64(header.value).Some?
    ensures r.Ok? ==> r.value == ParseU64(header.value).value as nat && r.value < U64_LIMIT
  {
    match header
    case None => Err("missing retry-after header")
    case Some(text) =>
      match ParseU64(text)
      case Some(n) => Ok(n as nat)
      case None => Err("invalid retry-after value")
  }

  /** Every number of seconds the header can carry is read back exactly. */
  lemma RetryAfterRoundTrip(n: u64)
    ensures ExtractRetryAfter(Some(NatToString(n as nat))) == Ok(n as nat)
  {
    ParseRendered(n);
  }

  /** The source's examples: missing, `7`, and `seven`. */
  lemma RetryAfterExamples()
    ensures ExtractRetryAfter(None).Err?
    ensures ExtractRetryAfter(Some("7")) == Ok(7)
    ensures ExtractRetryAfter(Some("seven")).Err?
  {
    RetryAfterRoundTrip(7);
    assert NatToString(7) == "7";
    ParseRejects();
  }

  /** The decision table: success and the non-retryable client errors are
      done; 413 splits; 429 retries after the server's delay when it gives a
      readable one and is otherwise done; every other code retries on the
      backoff sequence. */
  function ProcessResponse(status: StatusCode, retryAfter: Option<string>): (s: SendableState)
    ensures s == Split <==> status == 413
    ensures s.Retry? && s.delay.Some? <==> status == 429 && ExtractRetryAfter(retryAfter).Ok?
    ensures s.Retry? && s.delay.Some? ==> s.delay.value == ExtractRetryAfter(retryAfter).value
    ensures s == Retry(None) <==> !IsSuccess(status) && !IsDropCode(status) && status != 413 && status != 429
    ensures s == Done <==>
      IsSuccess(status) || IsDropCode(status) || (status == 429 && ExtractRetryAfter(retryAfter).Err?)
  {
    if IsSuccess(status) then Done
    else if IsDropCode(status) then Done
    else if status == 413 then Split
    else if status == 429 then
      match ExtractRetryAfter(retryAfter)
      case Ok(secs) => Retry(Some(secs))
      case Err(_) => Done
    else Retry(None)
  }

  /** Headers never matter except for 429: every other code is classified
      the same whatever `Retry-After` says. */
  lemma ClassificationIgnoresHeader(status: StatusCode, a: Option<string>, b: Option<string>)
    requires status != 429
    ensures ProcessResponse(status, a) == ProcessResponse(status, b)
  {
  }

  // ---------------------------------------------------------------------
  // Requests

  /** A header value the HTTP library accepts: no control character other
      than tab, and no DEL. */
  predicate ValidHeaderValue(s: string) {
    forall i :: 0 <= i < |s| ==> (s[i] as int >= 32 && s[i] as int != 127) || s[i] == '\t'
  }

  /** The seven request headers, in the order they are set. */
  function RequestHeaders(apiKey: string, requestId: string, userAgent: string): seq<(string, string)> {
    [ ("Api-Key", apiKey),
      ("Data-Format", "newrelic"),
      ("Data-Format-Version", "1"),
      ("x-request-id", requestId),
      ("User-Agent", userAgent),
      ("Content-Encoding", "gzip"),
      ("Content-Type", "application/json") ]
  }

  function HeaderNames(h: seq<(string, string)>): (names: seq<string>)
    ensures |names| == |h| && forall k :: 0 <= k < |h| ==> names[k] == h[k].0
  {
    if h == [] then [] else [h[0].0] + HeaderNames(h[1..])
  }

  /** The value of the first header with the given name. */
  function Lookup(h: seq<(string, string)>, name: string): Option<string> {
    if h == [] then None else if h[0].0 == name then Some(h[0].1) else Lookup(h[1..], name)
  }

  /** The first header with a name is the one found. */
  lemma {:induction false} LookupFirst(h: seq<(string, string)>, k: nat)
    requires k < |h|
    requires forall j :: 0 <= j < k ==> h[j].0 != h[k].0
    ensures Lookup(h, h[k].0) == Some(h[k].1)
  {
    if k > 0 {
      LookupFirst(h[1..], k - 1);
    }
  }

  /** Exactly seven headers, no name twice, each with its value. */
  lemma RequestHeaderSet(apiKey: string, requestId: string, userAgent: string)
    ensures var h := RequestHeaders(apiKey, requestId, userAgent);
      |h| == 7
      && (forall i, j :: 0 <= i < j < |h| ==> HeaderNames(h)[i] != HeaderNames(h)[j])
      && Lookup(h, "Api-Key") == Some(apiKey)
      && Lookup(h, "Data-Format") == Some("newrelic")
      && Lookup(h, "Data-Format-Version") == Some("1")
      && Lookup(h, "x-request-id") == Some(requestId)
      && Lookup(h, "User-Agent") == Some(userAgent)
      && Lookup(h, "Content-Encoding") == Some("gzip")
      && Lookup(h, "Content-Type") == Some("application/json")
  {
    var h := RequestHeaders(apiKey, requestId, userAgent);
    LookupFirst(h, 0);
    LookupFirst(h, 1);
    LookupFirst(h, 2);
    LookupFirst(h, 3);
    LookupFirst(h, 4);
    LookupFirst(h, 5);
    LookupFirst(h, 6);
  }

  datatype Request = Request(verb: string, uri: string, headers: seq<(string, string)>, body: seq<bv8>)

  /** How a batch becomes a body: the batch's own serialization, then gzip.
      Either can fail. */
  datatype Codec<!R> = Codec(marshall: Batch<R> -> Option<string>, gzip: string -> Option<seq<bv8>>)

  /** The POST request for a batch, or nothing when serializing or
      compressing fails or a header value is not acceptable. */
  function BuildRequest<R>(c: Client, b: Batch<R>, codec: Codec<R>): (r: Option<Request>)
    ensures r.Some? <==>
      codec.marshall(b).Some? && codec.gzip(codec.marshall(b).value).Some?
      && ValidHeaderValue(c.apiKey) && ValidHeaderValue(c.userAgent)
    ensures r.Some? ==>
      r.value.verb == "POST" && r.value.uri == c.endpoint
      && r.value.headers == RequestHeaders(c.apiKey, NatToString(b.uuid), c.userAgent)
      && r.value.body == codec.gzip(codec.marshall(b).value).value
  {
    match codec.marshall(b)
    case None => None
    case Some(raw) =>
      match codec.gzip(raw)
      case None => None
      case Some(body) =>
        if ValidHeaderValue(c.apiKey) && ValidHeaderValue(c.userAgent)
        then Some(Request("POST", c.endpoint, RequestHeaders(c.apiKey, NatToString(b.uuid), c.userAgent), body))
        else None
  }

  // ---------------------------------------------------------------------
  // The network, as a script of replies

  /** What one request gets back: a response, or a failure to send. */
  datatype Reply = Response(status: StatusCode, retryAfter: Option<string>) | TransportError

  /** What the environment observes: a request posted, or a wait. */
  datatype Event = Posted(request: Request) | Slept(secs: nat)

  /** The server side of every request: each request takes the next scripted
      reply (a transport error once the script is exhausted); requests and
      waits are logged in order. */
  class Network {
    var script: seq<Reply>
    var log: seq<Event>

    constructor (script: seq<Reply>)
      ensures this.script == script && log == []
    {
      this.script := script;
      log := [];
    }

    method Post(req: Request) returns (reply: Reply)
      modifies this
      ensures reply == if old(script) == [] then TransportError else old(script)[0]
      ensures script == if old(script) == [] then [] else old(script)[1..]
      ensures log == old(log) + [Posted(req)]
    {
      if script == [] {
        reply := TransportError;
      } else {
        reply := script[0];
        script := script[1..];
      }
      log := log + [Posted(req)];
    }

    method Sleep(secs: nat)
      modifies this
      ensures script == old(script) && log == old(log) + [Slept(secs)]
    {
      log := log + [Slept(secs)];
    }
  }

  // ---------------------------------------------------------------------
  // Delivery of one batch: the specification

  /** The outcome of delivering: the events produced, the replies left
      unread, and the next unused identifier. */
  datatype Run = Run(events: seq<Event>, script: seq<Reply>, nextId: nat)

  /** The wait after a retryable response: the server's delay when it gave
      one, otherwise this attempt's entry of the backoff sequence. */
  function WaitAfter(state: SendableState, backoffDelay: nat): nat {
    match state
    case Retry(Some(secs)) => secs
    case _ => backoffDelay
  }

  /** Deliver a batch from the start of the backoff sequence. */
  function Deliver<R>(c: Client, codec: Codec<R>, b: Batch<R>, script: seq<Reply>, nextId: nat): (r: Run)
    ensures |r.script| <= |script| && r.nextId >= nextId
    decreases |script|, |c.backoff| + 1
  {
    Attempts(c, codec, b, 0, script, nextId)
  }

  /** Attempts `i`, `i+1`, ... of delivering a batch. */
  function Attempts<R>(c: Client, codec: Codec<R>, b: Batch<R>, i: nat, script: seq<Reply>, nextId: nat): (r: Run)
    requires i <= |c.backoff|
    ensures |r.script| <= |script| && r.nextId >= nextId
    decreases |script|, |c.backoff| - i
  {
    if i == |c.backoff| then Run([], script, nextId)
    else
      match BuildRequest(c, b, codec)
      case None => Run([], script, nextId)
      case Some(req) =>
        if script == [] then Run([Posted(req)], [], nextId)
        else if script[0].TransportError? then Run([Posted(req)], script[1..], nextId)
        else
          match ProcessResponse(script[0].status, script[0].retryAfter)
          case Done => Run([Posted(req)], script[1..], nextId)
          case Split =>
            var (kept, returned) := SplitBatch(b, nextId, nextId + 1);
            var first := Deliver(c, codec, kept, script[1..], nextId + 2);
            var second := Deliver(c, codec, returned, first.script, first.nextId);
            Run([Posted(req)] + first.events + second.events, second.script, second.nextId)
          case Retry(delay) =>
            var rest := Attempts(c, codec, b, i + 1, script[1..], nextId);
            Run([Posted(req), Slept(WaitAfter(Retry(delay), c.backoff[i]))] + rest.events, rest.script, rest.nextId)
  }

  /** A batch that cannot be encoded ends its delivery: nothing is sent and
      no reply is used. */
  lemma EncodeFailureEnds<R>(c: Client, codec: Codec<R>, b: Batch<R>, i: nat, script: seq<Reply>, nextId: nat)
    requires i < |c.backoff| && BuildRequest(c, b, codec).None?
    ensures Attempts(c, codec, b, i, script, nextId) == Run([], script, nextId)
  {
  }

  /** A transport failure ends the delivery after that one request. */
  lemma TransportFailureEnds<R>(c: Client, codec: Codec<R>, b: Batch<R>, i: nat, script: seq<Reply>, nextId: nat)
    requires i < |c.backoff| && BuildRequest(c, b, codec).Some?
    requires script == [] || script[0].TransportError?
    ensures Attempts(c, codec, b, i, script, nextId)
      == Run([Posted(BuildRequest(c, b, codec).value)], if script == [] then [] else script[1..], nextId)
  {
  }

  /** A response classified as done ends the delivery after that request. */
  lemma StopsAtDone<R>(c: Client, codec: Codec<R>, b: Batch<R>, i: nat, script: seq<Reply>, nextId: nat)
    requires i < |c.backoff| && BuildRequest(c, b, codec).Some?
    requires script != [] && script[0].Response?
    requires ProcessResponse(script[0].status, script[0].retryAfter) == Done
    ensures Attempts(c, codec, b, i, script, nextId)
      == Run([Posted(BuildRequest(c, b, codec).value)], script[1..], nextId)
  {
  }

  /** A retryable response is followed by a wait (the server's delay, else
      entry `i` of the sequence) and then attempt `i+1`: the index advances
      by one whatever the wait was. */
  lemma RetryWaitsThenContinues<R>(c: Client, codec: Codec<R>, b: Batch<R>, i: nat, script: seq<Reply>, nextId: nat)
    requires i < |c.backoff| && BuildRequest(c, b, codec).Some?
    requires script != [] && script[0].Response?
    requires ProcessResponse(script[0].status, script[0].retryAfter).Retry?
    ensures var state := ProcessResponse(script[0].status, script[0].retryAfter);
      var rest := Attempts(c, codec, b, i + 1, script[1..], nextId);
      Attempts(c, codec, b, i, script, nextId)
        == Run([Posted(BuildRequest(c, b, codec).value), Slept(WaitAfter(state, c.backoff[i]))] + rest.events,
               rest.script, rest.nextId)
  {
  }

  /** After 413 the batch is split (kept half first, under the first fresh
      identifier) and the original's attempts end: the kept half is delivered
      in full, from the start of the sequence, before the returned half. */
  lemma SplitDeliversKeptFirst<R>(c: Client, codec: Codec<R>, b: Batch<R>, i: nat, script: seq<Reply>, nextId: nat)
    requires i < |c.backoff| && BuildRequest(c, b, codec).Some?
    requires script != [] && script[0].Response?
    requires script[0].status == 413
    ensures var (kept, returned) := SplitBatch(b, nextId, nextId + 1);
      var first := Deliver(c, codec, kept, script[1..], nextId + 2);
      var second := Deliver(c, codec, returned, first.script, first.nextId);
      && kept.records + returned.records == b.records
      && Attempts(c, codec, b, i, script, nextId)
         == Run([Posted(BuildRequest(c, b, codec).value)] + (first.events + second.events), second.script, second.nextId)
  {
  }

  // ---------------------------------------------------------------------
  // Delivery of one batch: the loop

  /** `events` followed by the events of run `r`, which ends where `r` ends. */
  function Prepend(events: seq<Event>, r: Run): Run {
    Run(events + r.events, r.script, r.nextId)
  }

  /** Proof helper: regrouping a concatenation of event logs. Stated once
      so the methods below need not rediscover it. */
  lemma AppendAssociates(a: seq<Event>, b: seq<Event>, c: seq<Event>)
    ensures (a + b) + c == a + (b + c)
  {
  }

  /** Send a batch: one attempt per entry of the backoff sequence, stopping
      at the first attempt that settles the batch. */
  method Send<R>(c: Client, codec: Codec<R>, batch: Batch<R>, net: Network, ids: IdSupply)
    modifies net, ids
    ensures var r := Deliver(c, codec, batch, old(net.script), old(ids.next));
      net.log == old(net.log) + r.events && net.script == r.script && ids.next == r.nextId
    decreases |net.script|, 2
  {
    ghost var done: seq<Event> := [];
    for i := 0 to |c.backoff|
      invariant |net.script| <= |old(net.script)|
      invariant net.log == old(net.log) + done
      invariant Deliver(c, codec, batch, old(net.script), old(ids.next))
        == Prepend(done, Attempts(c, codec, batch, i, net.script, ids.next))
    {
      ghost var logBefore := net.log;
      var more, events := Attempt(c, codec, batch, i, net, ids);
      AppendAssociates(old(net.log), done, events);
      if more {
        AppendAssociates(done, events, Attempts(c, codec, batch, i + 1, net.script, ids.next).events);
      }
      done := done + events;
      if !more {
        return;
      }
    }
  }

  /** Attempt `i` of a delivery: build and post the request, then act on the
      reply. `more` says whether the delivery goes on with attempt `i+1`
      (after a retryable response and its wait); otherwise the delivery is
      over, the 413 branch having delivered both halves of the split. */
  method Attempt<R>(c: Client, codec: Codec<R>, batch: Batch<R>, i: nat, net: Network, ids: IdSupply)
    returns (more: bool, ghost events: seq<Event>)
    requires i < |c.backoff|
    modifies net, ids
    ensures net.log == old(net.log) + events && |net.script| <= |old(net.script)|
    ensures more ==>
      Attempts(c, codec, batch, i, old(net.script), old(ids.next))
      == Prepend(events, Attempts(c, codec, batch, i + 1, net.script, ids.next))
    ensures !more ==>
      Attempts(c, codec, batch, i, old(net.script), old(ids.next)) == Run(events, net.script, ids.next)
    decreases |net.script|, 1
  {
    ghost var script, nextId := net.script, ids.next;
    var request := BuildRequest(c, batch, codec);
    if request.None? {
      EncodeFailureEnds(c, codec, batch, i, script, nextId);
      return false, [];
    }
    var reply := net.Post(request.value);
    if reply.TransportError? {
      TransportFailureEnds(c, codec, batch, i, script, nextId);
      return false, [Posted(request.value)];
    }
    var status := ProcessResponse(reply.status, reply.retryAfter);
    match status {
      case Done =>
        StopsAtDone(c, codec, batch, i, script, nextId);
        return false, [Posted(request.value)];
      case Retry(_) =>
        RetryWaitsThenContinues(c, codec, batch, i, script, nextId);
        var duration := WaitAfter(status, c.backoff[i]);
        net.Sleep(duration);
        AppendAssociates(old(net.log), [Posted(request.value)], [Slept(duration)]);
        return true, [Posted(request.value), Slept(duration)];
      case Split =>
        SplitDeliversKeptFirst(c, codec, batch, i, script, nextId);
        var halves := DeliverHalves(c, codec, batch, net, ids);
        AppendAssociates(old(net.log), [Posted(request.value)], halves);
        return false, [Posted(request.value)] + halves;
    }
  }

  /** The 413 branch: split the batch (the kept half takes the first fresh
      identifier), deliver the kept half, then the returned half, each from
      the start of the backoff sequence. */
  method DeliverHalves<R>(c: Client, codec: Codec<R>, batch: Batch<R>, net: Network, ids: IdSupply)
    returns (ghost events: seq<Event>)
    modifies net, ids
    ensures var (kept, returned) := SplitBatch(batch, old(ids.next), old(ids.next) + 1);
      var first := Deliver(c, codec, kept, old(net.script), old(ids.next) + 2);
      var second := Deliver(c, codec, returned, first.script, first.nextId);
      events == first.events + second.events && net.log == old(net.log) + events
      && net.script == second.script && ids.next == second.nextId
    decreases |net.script|, 3
  {
    var keptId := ids.Fresh();
    var newId := ids.Fresh();
    var (kept, returned) := SplitBatch(batch, keptId, newId);
    ghost var first := Deliver(c, codec, kept, net.script, ids.next);
    Send(c, codec, kept, net, ids);
    ghost var second := Deliver(c, codec, returned, net.script, ids.next);
    Send(c, codec, returned, net, ids);
    events := first.events + second.events;
    AppendAssociates(old(net.log), first.events, second.events);
  }
}
