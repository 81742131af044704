# New Relic Telemetry SDK for Rust — delivery core, modelled in Dafny

This project models the core of the New Relic Telemetry SDK for Rust:
- how a client is configured and built;
- how a batch of telemetry becomes a gzip-compressed HTTP POST;
- how the response to that POST is classified;
- the delivery loop: it retries on a backoff sequence, honours a `Retry-After` header, halves a batch on `413 Payload Too Large`, and drops the batch otherwise;
- the blocking client's worker queue, which drops the excess of each drain cycle;
- the data the SDK sends: attribute values, spans, and gauge, count and summary metrics with their metric batch.

Modules:

- `Common` (common.dfy): `Option` and `Result`.
- `Numeric` (numeric.dfy): the fixed-width integer types of the source, and an opaque `F64`.
- `JsonTree` (json.dfy): a JSON value tree. Serialization to text is not modelled.
- `Text` (text.dfy): decimal rendering of naturals, and Rust's `str::parse::<u64>`.
- `Attribute` (attribute.dfy): the untagged attribute `Value` union, its `From` conversions and its JSON form.
- `Spans` (span.dfy): a span as a class with setters and builder-style methods, and its JSON form.
- `Sendable` (sendable.dfy):
  - a batch: an identifier, records and common attributes;
  - the split of a batch;
  - `IdSupply`, which hands out fresh batch identifiers.
- `Metrics` (metric.dfy): gauge, count and summary metrics, their validation and JSON form, and the `MetricBatch` class (record, split, marshall).
- `Delivery` (client.dfy):
  - `ClientBuilder` and the backoff sequence, user agent and endpoint URI;
  - request construction and response classification;
  - the delivery loop. It is stated twice:
    - `Deliver`/`Attempts`, a function over a script of network replies;
    - `Send`/`Attempt`/`DeliverHalves`, methods over a `Network` object. Each method is proved equal to the function.
- `DeliveryFacts` (delivery_facts.dfy): what delivery guarantees:
  - request bounds;
  - the suffix property of consumed replies;
  - the retry trace;
  - the end-to-end scenarios of the source's integration tests.
  - the codec of a metric batch, and the drop of a batch whose common attributes do not convert.
- `Blocking` (blocking.dfy): the blocking client's worker. A queue is drained, truncated to `blocking_queue_max` and delivered batch by batch.

The network is a script of replies. Each `Post` consumes the next reply and logs `Posted(request)`. An empty script reads as a transport failure. Each wait logs `Slept(seconds)`.

In a few places the source's own comments and its code disagree. The model follows the code:

- The doc comments on `backoff_factor` and `retries_max` (`src/client.rs:155-161`) say the wait comes "after a request", and give the pattern `[0, 1, 2, 4, 8, 16]` for six retries. The code matches that pattern. It sleeps after every attempt that is retried, including the last one. The delay is that attempt's backoff entry, or the server's `Retry-After` delay. After the sleep, the loop ends and the batch is dropped.
- The backoff sequence has `retries_max` entries, and the code makes one request per entry (`src/client.rs:399`). So `retries_max = 3` allows at most 3 requests in all, not "the initial one and 3 retries":
  - The comment at `tests/blocking.rs:43` says four payloads should be sent, but the test's loop checks three.
  - The comment at `tests/blocking.rs:73` says six payloads for `retries_max = 5`, but the test's loop checks five.
  - The doc comment at `src/client.rs:183-184` says a maximum of zero means "no retries". In the code, zero means the batch is never sent at all.
- The blocking worker delivers the batches it keeps in one cycle concurrently, with `join_all` (`src/client.rs:551`). The model delivers them one after the other, in arrival order.

## Model

| member | source | states |
|---|---|---|
| Text.NatToString | src/metric.rs:286-290 | the decimal rendering of a count is non-empty, all digits and has no leading zero |
| Text.DigitsValueOfNatToString | src/metric.rs:286-290 | reading the rendered digits back gives the original number |
| Text.NatToStringInjective | src/metric.rs:286-290 | different numbers render to different texts |
| Text.ParseU64 | src/client.rs:386 | Rust's `u64::from_str`: an optional `+`, then at least one decimal digit, with a value below 2^64; anything else is an error. The lemmas below state this |
| Text.ParseRendered | src/client.rs:386 | `parse::<u64>` accepts the decimal rendering of every u64 and returns that value |
| Text.ParseAccepts | src/client.rs:386 | every accepted text is an optional `+` followed by at least one digit, and its value is the value of those digits |
| Text.ParseRejects | src/client.rs:386 | the empty text, a lone `+`, a negative number and a word are rejected |
| Text.ParseSignAndZeros | src/client.rs:386 | a leading `+` and leading zeros are accepted, as Rust's parser accepts them |
| Attribute.FromI128 | src/attribute.rs:86-90 | an i128 becomes an `Int128` value holding the same integer |
| Attribute.FromI64 | src/attribute.rs:100-104 | an i64 becomes an `Int` value holding the same integer |
| Attribute.FromI32 | src/attribute.rs:114-118 | an i32 is widened to i64 and is the same value as that i64's conversion |
| Attribute.FromU128 | src/attribute.rs:128-132 | a u128 becomes a `UInt128` value holding the same integer |
| Attribute.FromU64 | src/attribute.rs:142-146 | a u64 becomes a `UInt` value holding the same integer |
| Attribute.FromU32 | src/attribute.rs:156-160 | a u32 is widened to u64 and is the same value as that u64's conversion |
| Attribute.FromStr | src/attribute.rs:170-174 | a string becomes a `Str` value that serializes to that JSON string |
| Attribute.FromBool | src/attribute.rs:212-216 | a boolean becomes a `Bool` value that serializes to that JSON boolean |
| Attribute.ToJson | src/attribute.rs:11-13 | untagged serialization: an integer value is the bare JSON number, whatever its variant; `Fits64` says when serde_json accepts it |
| Attribute.SerdeRange | src/metric.rs:93 | serde_json's `to_value` accepts every 64-bit and non-integer value, and a 128-bit value exactly when it lies in the i64 or the u64 range; `2^70` and `-2^70` are refused |
| Attribute.AttributesJson | src/metric.rs:310-312 | an attribute map serializes to a JSON object with the same keys, each holding its value's JSON |
| Attribute.UntaggedIntegers | src/attribute.rs:11-13 | two integer values serialize alike exactly when they hold the same integer, whatever their variants |
| Attribute.ValueToJsonExamples | src/attribute.rs:223-251 | the serialization and conversion examples of the source's tests |
| Spans.SpanJson | src/span.rs:1-10 | a span serializes to an object with exactly the keys `id`, `trace.id` and `timestamp` |
| Spans.SpanJsonRoundTrip | src/span.rs:96-104 | a span's JSON determines the span: reading it back gives the same id, trace id and timestamp |
| Spans.Span.constructor | src/span.rs:14-20 | a new span holds the given id, trace id and timestamp |
| Spans.Span.SetId | src/span.rs:28-30 | only the id changes |
| Spans.Span.Id | src/span.rs:23-26 | builder form: only the id changes, and the same span is returned |
| Spans.Span.SetTraceId | src/span.rs:39-41 | only the trace id changes |
| Spans.Span.TraceId | src/span.rs:34-37 | builder form: only the trace id changes, and the same span is returned |
| Spans.Span.SetTimestamp | src/span.rs:50-52 | only the timestamp changes |
| Spans.Span.Timestamp | src/span.rs:45-48 | builder form: only the timestamp changes, and the same span is returned |
| Spans.SetterScenarios | src/span.rs:60-94 | the source's setter tests: after each in-place or builder-style write, the span holds the value last written and its other fields are unchanged |
| Sendable.SplitBatch | src/metric.rs:318-327 | the kept half has `n / 2` records; the two halves concatenate to the original records; both copy the common attributes; each gets its fresh identifier |
| Sendable.SplitSizes | src/metric.rs:318-327 | the halves' sizes add up to `n`, and the kept half is never the larger |
| Sendable.IdSupply.Fresh | src/metric.rs:265 | each identifier handed out is new: the counter moves past it |
| Metrics.Metric.WithValue | src/metric.rs:164-167 | a gauge or count gets the value, and nothing else changes |
| Metrics.Metric.WithSummary | src/metric.rs:227-235 | a summary gets count, sum, min and max, and nothing else changes |
| Metrics.Metric.WithTimestamp | src/metric.rs:169-172 | the timestamp is set, and nothing else changes |
| Metrics.Metric.WithInterval | src/metric.rs:203-206 | a count or summary gets the interval, and nothing else changes |
| Metrics.Metric.WithAttribute | src/metric.rs:175-178 | the attribute is inserted or replaced; every other attribute and field is unchanged |
| Metrics.NewGauge | src/metric.rs:154-162 | a gauge named `name` with no value, no timestamp and no attributes |
| Metrics.NewCount | src/metric.rs:182-191 | a count named `name` with no value, timestamp, interval or attributes |
| Metrics.NewSummary | src/metric.rs:216-225 | a summary named `name` with no value, timestamp, interval or attributes |
| Metrics.Stamped | src/metric.rs:96-106 | a missing timestamp becomes the clock's time (0 when the clock fails); a present one is kept; nothing else changes |
| Metrics.Valid | src/metric.rs:96-150 | validation succeeds exactly when the metric has its value (and, for counts and summaries, its interval); the error message otherwise; the timestamp is always filled in |
| Metrics.CommonFields | src/metric.rs:31-43 | every metric object carries exactly `name`, `type`, `value` and `timestamp`: its name, its kind, its value (the summary object for a summary) and its timestamp, with null for an absent one |
| Metrics.TimedFields | src/metric.rs:47-62 | the common fields, plus `interval.ms` holding the interval (or null) exactly for counts and summaries |
| Metrics.MetricJson | src/metric.rs:31-95 | every common field with its value; `interval.ms` with the interval exactly for counts and summaries; `attributes` with the attributes' JSON exactly when there are attributes; no other key |
| Metrics.MetricJsonInjective | src/metric.rs:31-95 | the JSON determines the metric's kind, name, value, timestamp and interval, and the JSON of its attributes |
| Metrics.CommonFieldsInjective | src/metric.rs:31-89 | the common fields determine the kind, name, value and timestamp |
| Metrics.SummaryJsonInjective | src/metric.rs:64-70 | a summary's JSON determines its count, sum, min and max |
| Metrics.StampedTimestampSent | src/metric.rs:96-106 | the timestamp that validation fills in is the one serialized: the metric's own, otherwise the clock's reading or 0 |
| Metrics.Rendered | src/metric.rs:300-305 | the JSON of every metric whose conversion succeeds, in recording order; its properties are the lemmas below |
| Metrics.Payload | src/metric.rs:307-313 | `[{"metrics": [...]}]`, with `common.attributes` added when the batch has common attributes, or no payload when a common attribute does not fit 64 bits; `PayloadShape` states its shape |
| Metrics.BuiltinRender | src/metric.rs:92-94 | a built-in metric's `json()`: it fails exactly when one of its attributes does not fit 64 bits, and otherwise gives the metric's JSON |
| Metrics.RenderedAll | src/metric.rs:300-305 | when no metric fails to render, the list holds every metric's JSON, in order |
| Metrics.BuiltinListsEvery | src/metric.rs:300-305 | with the built-in JSON forms, when every metric's attributes fit 64 bits, the list holds one entry per metric, in order |
| Metrics.BuiltinSkipsWide | src/metric.rs:300-305 | a metric with an attribute that does not fit 64 bits is skipped, and the metrics around it are listed as before |
| Metrics.RenderedBound | src/metric.rs:300-305 | metrics that fail to render are skipped: the list is never longer than the batch |
| Metrics.RenderedAppend | src/metric.rs:300-305 | rendering distributes over concatenation of the metric list |
| Metrics.PayloadShape | src/metric.rs:297-316 | there is a payload exactly when every common attribute fits 64 bits; it is a one-element array whose object holds `metrics` with the rendered list, holds `common` exactly when the batch has common attributes, then with `{"attributes": ...}` of those attributes, and has no other key |
| Metrics.EmptyPayload | src/metric.rs:297-316 | an empty batch marshals to `[{"metrics":[]}]` |
| Metrics.BatchSummary | src/metric.rs:286-290 | the display text is `<MetricBatch, ` then the count in decimal, then ` data points>` |
| Metrics.BatchSummaryInjective | src/metric.rs:286-290 | the display text determines the number of data points |
| Metrics.MetricBatch.Display | src/metric.rs:286-290 | a batch displays as `BatchSummary` of its number of metrics |
| Metrics.MetricBatch.constructor | src/metric.rs:263-269 | a new batch has a fresh identifier, no metrics and no attributes |
| Metrics.MetricBatch.AddAttribute | src/metric.rs:272-274 | the common attribute is inserted or replaced; the metrics and identifier are unchanged |
| Metrics.MetricBatch.Record | src/metric.rs:277-283 | a valid metric is appended with its timestamp filled in; an invalid one is refused and the batch is unchanged |
| Metrics.MetricBatch.Split | src/metric.rs:318-327 | the batch and the new batch are the two halves of the old batch; both get new identifiers, distinct from each other and from the old one |
| Metrics.MetricBatch.Marshall | src/metric.rs:297-316 | the loop produces exactly the payload of the metrics and attributes, and fails when `Payload` has none |
| Delivery.BackoffPrefix | src/client.rs:305-315 | `n` delays, the k-th being 0 for k = 0 and `factor * 2^(k-1)` after |
| Delivery.BackoffSequence | src/client.rs:305-315 | `retries_max` delays, each the backoff delay for its position |
| Delivery.BackoffDoubles | src/client.rs:305-315 | from the second entry on, each delay is twice the one before |
| Delivery.BackoffExamples | src/client.rs:914-948 | the default sequence, a custom one and the empty one of the source's tests |
| Delivery.UserAgent | src/client.rs:317-324 | `NewRelic-Rust-TelemetrySDK/<version>`, followed by ` <product>/<version>` exactly when product information is set |
| Delivery.UriText | src/client.rs:72-87 | the URI is the scheme, `://`, the host, `:port` when a port is set, then `/` and the path |
| Delivery.TlsOnlyChangesScheme | src/client.rs:72-87 | with and without TLS, the URIs differ only in `https` against `http` |
| Delivery.ResolveUri | src/client.rs:72-87 | resolution fails exactly when the URI text does not parse, and otherwise yields that text |
| Delivery.UriWithPort | src/client.rs:646-679 | the URIs of the source's tests, with a port |
| Delivery.UriWithoutPort | src/client.rs:646-679 | the URIs of the source's tests, without a port |
| Delivery.ClientBuilder.constructor | src/client.rs:134-149 | the defaults: 5 s backoff factor, 8 retries, the default trace endpoint, no product information, queue limit 100, TLS on |
| Delivery.ClientBuilder.BackoffFactor | src/client.rs:173-176 | only the backoff factor changes |
| Delivery.ClientBuilder.RetriesMax | src/client.rs:198-201 | only the maximum number of retries changes |
| Delivery.ClientBuilder.EndpointTraces | src/client.rs:214-221 | only the trace endpoint changes, to the host and port given with the trace API path |
| Delivery.ClientBuilder.ProductInfo | src/client.rs:237-240 | only the product information changes |
| Delivery.ClientBuilder.BlockingQueueMax | src/client.rs:256-259 | only the queue limit changes |
| Delivery.ClientBuilder.Tls | src/client.rs:265-268 | only the TLS flag changes |
| Delivery.ClientBuilder.Build | src/client.rs:283-285 | building fails exactly when the endpoint URI does not parse; otherwise the client carries the key, the user agent, the backoff sequence and the URI |
| Delivery.ExtractRetryAfter | src/client.rs:384-390 | a delay exists exactly when the header is present and parses as a u64, and it is that number of seconds |
| Delivery.RetryAfterRoundTrip | src/client.rs:384-390 | every u64 written in decimal in the header is read back as that delay |
| Delivery.RetryAfterExamples | src/client.rs:722-740 | a missing header and a non-number are errors; `7` is seven seconds |
| Delivery.ProcessResponse | src/client.rs:458-498 | 413 splits; 429 with a readable delay retries after it; 2xx, the drop codes and 429 without a readable delay are done; every other status retries on the backoff sequence. Each case is an if and only if |
| Delivery.ClassificationIgnoresHeader | src/client.rs:458-498 | the `Retry-After` header matters only for 429 |
| Delivery.RequestHeaders | src/client.rs:443-449 | the seven headers in the order the request sets them; `RequestHeaderSet` states their names and values |
| Delivery.HeaderNames | src/client.rs:436-451 | one name per header, in order |
| Delivery.LookupFirst | src/client.rs:436-451 | a header whose name does not occur earlier is found by name with its own value |
| Delivery.RequestHeaderSet | src/client.rs:436-451 | a request carries exactly seven headers with distinct names: the API key, `newrelic`, `1`, the batch identifier, the user agent, `gzip` and `application/json` |
| Delivery.BuildRequest | src/client.rs:436-451 | a request exists exactly when serializing and compressing succeed and the header values are acceptable; it is a POST to the client's endpoint with those headers and the compressed body |
| Delivery.Network.Post | src/client.rs:408-414 | a post consumes the next reply (a transport error when none is left) and is logged |
| Delivery.Network.Sleep | src/client.rs:430 | a sleep is logged and consumes no reply |
| Delivery.Deliver | src/client.rs:393-433 | delivery of a batch from the first backoff entry; never reads more replies than it is given, and the identifier counter never moves back |
| Delivery.Attempts | src/client.rs:399-430 | attempts `i`, `i+1`, ...: one iteration of the loop per backoff entry, as the step lemmas below state case by case |
| Delivery.EncodeFailureEnds | src/client.rs:400-406 | a batch that cannot be encoded ends its delivery with nothing sent |
| Delivery.TransportFailureEnds | src/client.rs:408-414 | a transport failure ends the delivery after the one request |
| Delivery.StopsAtDone | src/client.rs:418-419 | a done classification ends the delivery after the one request |
| Delivery.RetryWaitsThenContinues | src/client.rs:418-430 | a retry classification waits (the server's delay, or this attempt's backoff entry) and then makes the next attempt |
| Delivery.SplitDeliversKeptFirst | src/client.rs:421-426 | on 413 the kept half is delivered in full and then the returned half, each from the start of the backoff sequence |
| Delivery.Send | src/client.rs:393-433 | the requests and waits of the loop are exactly those of `Deliver`, and it uses the same replies and identifiers |
| Delivery.Attempt | src/client.rs:399-430 | one iteration of the loop: its requests and waits, and whether the loop continues, agree with `Attempts` |
| Delivery.DeliverHalves | src/client.rs:421-425 | the two halves are delivered one after the other, kept half first, as `Deliver` specifies |
| DeliveryFacts.AttemptsBound | src/client.rs:399 | without 413 replies, attempts from position `i` make at most `len - i` requests |
| DeliveryFacts.DeliverBound | src/client.rs:399 | without 413 replies, one delivery makes at most `retries_max` requests |
| DeliveryFacts.DeliverSuffix | src/client.rs:393-433 | the replies left after a delivery are a suffix of those before it, so replies are read in order and none is skipped |
| DeliveryFacts.AttemptsSuffix | src/client.rs:393-433 | the same for attempts from any position |
| DeliveryFacts.SplitSuffix | src/client.rs:421-425 | the same after a 413: both halves read from the front of the replies left |
| DeliveryFacts.PostsAppend | src/client.rs:393-433 | the count of requests distributes over concatenation of event logs |
| DeliveryFacts.NoRetriesNoRequests | src/client.rs:305-315 | with `retries_max = 0`, delivery sends nothing and uses no reply |
| DeliveryFacts.Waits | src/client.rs:417-429 | the k-th wait of an all-retry run is the server's delay for the k-th reply when given, otherwise the k-th backoff entry |
| DeliveryFacts.RetryTracePosts | src/client.rs:393-433 | a trace of request-then-wait pairs holds one request per wait |
| DeliveryFacts.AllRetriesTrace | src/client.rs:393-433 | when every reply asks for a retry, delivery posts the same request once per remaining backoff entry, waits after each, and then gives up |
| DeliveryFacts.BackoffScenario | tests/blocking.rs:27-52 | with 3 retries, factor 0 and three 500s: three requests, zero-second waits, and the fourth reply is never read |
| DeliveryFacts.RetryAfterScenario | tests/blocking.rs:55-88 | with 5 retries, factor 3600 s and `Retry-After: 0` each time: five requests, each followed by a zero-second wait rather than the backoff delay |
| DeliveryFacts.DropScenario | tests/blocking.rs:144-158 | a drop code ends delivery after the first request |
| DeliveryFacts.SplitScenario | tests/blocking.rs:187-247 | 413 then 202, 202 for four records: three requests, for the whole batch, then its first two records, then its last two |
| DeliveryFacts.WideCommonAttributeDropped | src/client.rs:400-405 | a metric batch with a common attribute that does not fit 64 bits fails to marshal, so it is dropped with no request sent and no reply used |
| Blocking.Retain | src/client.rs:542-549 | the batches a cycle keeps: the first `blocking_queue_max` in arrival order, or all of them |
| Blocking.RetainPolicy | src/client.rs:542-549 | over the limit, the first `blocking_queue_max` batches are kept and the rest are dropped; within the limit, all are kept |
| Blocking.RetainIsPrefix | src/client.rs:542-549 | kept batches keep their arrival order and position |
| Blocking.DeliverAll | src/client.rs:551-554 | the kept batches delivered one after the other, each on the replies the earlier ones left |
| Blocking.DeliverAllSuffix | src/client.rs:551-554 | delivering the kept batches reads the replies in order |
| Blocking.DeliverAllBound | src/client.rs:551-554 | without 413 replies, `n` batches cost at most `n * retries_max` requests |
| Blocking.WorkerCycleBound | src/client.rs:539-551 | one cycle costs at most `blocking_queue_max * retries_max` requests, however many batches were queued |
| Blocking.BlockingQueue.constructor | src/client.rs:522-525 | a new queue is empty, and its limit is the builder's `blocking_queue_max` |
| Blocking.BlockingQueue.Submit | src/client.rs:563-567 | submitting appends the batch to the queue and never fails |
| Blocking.BlockingQueue.DrainCycle | src/client.rs:528-546 | the queue is emptied; the batches kept are the retained prefix; the count dropped is the rest |
| Blocking.BlockingQueue.WorkerCycle | src/client.rs:528-554 | one cycle empties the queue and delivers exactly the retained batches, in order, as `DeliverAll` specifies |
| Blocking.BackpressureScenario | tests/blocking.rs:161-183 | ten batches against a limit of one: the first is kept and nine are dropped; when the server answers 202, exactly one request is sent, for the first batch |

## Left out

- The HTTP transport (hyper client, TLS connector, DNS): replaced by a scripted list of replies.
- Gzip compression (`to_gzip`, flate2) and `serde_json` text rendering: compression is a `Codec` parameter, and JSON is a value tree, not text.
- Parsing the URI text into hyper's `Uri`: a `parses` parameter. The crate version (`CARGO_PKG_VERSION`) is a `version` parameter.
- UUID v4 generation: identifiers come from a counter (`IdSupply`) and are written in decimal in `x-request-id`. Only their freshness is modelled.
- The wall clock `now_as_millis`: a parameter, with `None` for a clock failure. `thread::sleep` is logged as a `Slept` event.
- Concurrency: the tokio runtime, `join_all`, the mpsc channel and its mutex. `DeliverAll` delivers the batches of a cycle one after the other.
- Shutdown: channel close and the thread join (the `Err(_) => break` branch of the worker) are not modelled.
- Floating-point values are opaque bit patterns (`F64`), so `From<f64>`/`From<f32>` and the `null` rendering of non-finite floats are not modelled.
- Logging (`error!`, `warn!`, `info!`, `debug!`) is not modelled.
- `src/sender.rs` and `src/lib.rs` are not part of this model, so the span batch type is not modelled; batches are the generic `Batch`.
- The async `Client::send_spans` (`src/client.rs:371-373`) is only a call of `send` and has no member of its own; `Delivery.Send` models `send`. The blocking `send_spans` is `Blocking.BlockingQueue.Submit`.
- User implementations of `Metric::json`: marshalling takes the rendering function as a parameter (`render`). `BuiltinRender` is the crate's own JSON forms.
- Attribute.Fits64: follows the serde_json releases that convert an i128 or u128 when it fits i64 or u64 and refuse it otherwise. Older serde_json releases refuse every 128-bit integer. The crate's serde_json version is not part of this model. The `arbitrary_precision` feature, which would accept every width, is not modelled.
- Metrics.MetricBatch.Record: accepts only the three built-in metric kinds, validated by `Valid`. The source's `record<T: Metric>` also takes user types with their own `valid`; those are not modelled.
- Delivery.ClientBuilder.Build: requires `BackoffFits`. That is, `2^(retries_max - 2)` must fit a u32, and each delay must fit a `Duration`. Outside that range, the source's behaviour depends on how it is built:
  - The `Duration * u32` overflow always panics.
  - `2_u32.pow` at `src/client.rs:311` panics only when overflow checks are on. In a release build it wraps, so for example `2^32` becomes 0 and the delay becomes 0 s.
  - Neither outcome is modelled.
- Durations are whole seconds: sub-second backoff factors are not modelled.
- Delivery.ExtractRetryAfter: only accepts the delay-seconds form of `Retry-After`, as the source does. A header value that is not visible ASCII fails there already in `to_str`; the model folds that into the parse failure.
- Header names are compared exactly. HTTP's case-insensitivity of header names is not modelled.
- Delivery.Deliver: terminates because every 413 consumes a reply from a finite script. Against a server that answers 413 forever, the source recurses without end. That case is not modelled.
