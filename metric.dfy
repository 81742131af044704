/** Metrics (gauge, count, summary), their validation, and the metric batch:
    recording, common attributes, splitting and the JSON payload. */
module Metrics {
  import opened Common
  import opened Numeric
  import opened Text
  import opened JsonTree
  import opened Attribute
  import opened Sendable

  datatype SummaryValue = SummaryValue(count: u64, sum: F64, min: F64, max: F64)

  /** The three metric kinds. A gauge has no interval; a summary's value is a
      `SummaryValue` rather than a single float. */
  datatype Metric =
    | Gauge(name: string, value: Option<F64>, timestamp: Option<u64>, attributes: map<string, Value>)
    | Count(name: string, value: Option<F64>, timestamp: Option<u64>, interval: Option<u64>,
            attributes: map<string, Value>)
    | Summary(name: string, summary: Option<SummaryValue>, timestamp: Option<u64>, interval: Option<u64>,
              attributes: map<string, Value>)
  {
    /** The `type` tag written on the wire. */
    function TypeName(): string {
      match this
      case Gauge(_, _, _, _) => "gauge"
      case Count(_, _, _, _, _) => "count"
      case Summary(_, _, _, _, _) => "summary"
    }

    /** Builder form: set the value of a gauge or count; nothing else changes. */
    function WithValue(v: F64): (m: Metric)
      requires Gauge? || Count?
      ensures (m.Gauge? || m.Count?) && m.value == Some(v) && m.(value := value) == this
    {
      this.(value := Some(v))
    }

    /** Builder form: set the value of a summary; nothing else changes. */
    function WithSummary(count: u64, sum: F64, min: F64, max: F64): (m: Metric)
      requires Summary?
      ensures m.Summary? && m.summary == Some(SummaryValue(count, sum, min, max)) && m.(summary := summary) == this
    {
      this.(summary := Some(SummaryValue(count, sum, min, max)))
    }

    /** Builder form: set the timestamp; nothing else changes. */
    function WithTimestamp(t: u64): (m: Metric)
      ensures m.timestamp == Some(t) && m.(timestamp := timestamp) == this
    {
      this.(timestamp := Some(t))
    }

    /** Builder form: set the interval of a count or summary; nothing else changes. */
    function WithInterval(i: u64): (m: Metric)
      requires Count? || Summary?
      ensures (m.Count? || m.Summary?) && m.interval == Some(i) && m.(interval := interval) == this
    {
      this.(interval := Some(i))
    }

    /** Builder form: insert or overwrite one attribute; nothing else changes. */
    function WithAttribute(key: string, v: Value): (m: Metric)
      ensures m.attributes.Keys == attributes.Keys + {key} && m.attributes[key] == v
      ensures forall k :: k in attributes && k != key ==> m.attributes[k] == attributes[k]
      ensures m.(attributes := attributes) == this
    {
      this.(attributes := attributes[key := v])
    }
  }

  /** A fresh metric of each kind: a name and nothing else. */
  function NewGauge(name: string): (m: Metric)
    ensures m.Gauge? && m.name == name && m.TypeName() == "gauge"
    ensures m.value.None? && m.timestamp.None? && m.attributes == map[]
  {
    Gauge(name, None, None, map[])
  }

  function NewCount(name: string): (m: Metric)
    ensures m.Count? && m.name == name && m.TypeName() == "count"
    ensures m.value.None? && m.timestamp.None? && m.interval.None? && m.attributes == map[]
  {
    Count(name, None, None, None, map[])
  }

  function NewSummary(name: string): (m: Metric)
    ensures m.Summary? && m.name == name && m.TypeName() == "summary"
    ensures m.summary.None? && m.timestamp.None? && m.interval.None? && m.attributes == map[]
  {
    Summary(name, None, None, None, map[])
  }

  /** A metric carries what its kind requires: a value, and for counts and
      summaries an interval as well. */
  predicate Complete(m: Metric) {
    match m
    case Gauge(_, value, _, _) => value.Some?
    case Count(_, value, _, interval, _) => value.Some? && interval.Some?
    case Summary(_, summary, _, interval, _) => summary.Some? && interval.Some?
  }

  /** The metric with its timestamp defaulted to the clock reading (0 when the
      clock cannot be read) if it had none. */
  function Stamped(m: Metric, now: Option<u64>): (s: Metric)
    ensures s.timestamp.Some?
    ensures m.timestamp.Some? ==> s == m
    ensures m.timestamp.None? ==> s.timestamp == Some(now.GetOr(0))
    ensures s.(timestamp := m.timestamp) == m
  {
    if m.timestamp.None? then m.(timestamp := Some(now.GetOr(0))) else m
  }

  /** Validation: the timestamp is filled in first, so it is filled even when
      validation then fails; the check fails exactly when a required field is
      missing. */
  method Valid(m: Metric, now: Option<u64>) returns (filled: Metric, r: Result<()>)
    ensures filled == Stamped(m, now)
    ensures r.Ok? <==> Complete(m)
    ensures r.Err? ==> r.error == "metric requires a value"
  {
    filled := m;
    if filled.timestamp.None? {
      filled := filled.(timestamp := Some(now.GetOr(0)));
    }
    match filled {
      case Gauge(_, value, _, _) =>
        if value.None? {
          return filled, Err("metric requires a value");
        }
      case Count(_, value, _, interval, _) =>
        if value.None? {
          return filled, Err("metric requires a value");
        }
        if interval.None? {
          return filled, Err("metric requires a value");
        }
      case Summary(_, summary, _, interval, _) =>
        if summary.None? {
          return filled, Err("metric requires a value");
        }
        if interval.None? {
          return filled, Err("metric requires a value");
        }
    }
    r := Ok(());
  }

  function OptionJson<T>(o: Option<T>, f: T -> Json): Json {
    match o
    case Some(x) => f(x)
    case None => JNull
  }

  function SummaryJson(v: SummaryValue): Json {
    JObj(map["count" := JNum(v.count as int), "sum" := JFloat(v.sum), "min" := JFloat(v.min), "max" := JFloat(v.max)])
  }

  /** The fields every built-in metric has, absent values as null. */
  function CommonFields(m: Metric): (f: map<string, Json>)
    ensures f.Keys == {"name", "type", "value", "timestamp"}
    ensures f["type"] == JStr(m.TypeName()) && f["name"] == JStr(m.name)
    ensures f["timestamp"] == if m.timestamp.Some? then JNum(m.timestamp.value as int) else JNull
    ensures !m.Summary? ==> f["value"] == if m.value.Some? then JFloat(m.value.value) else JNull
    ensures m.Summary? ==> f["value"] == if m.summary.Some? then SummaryJson(m.summary.value) else JNull
  {
    var value := if m.Summary? then OptionJson(m.summary, SummaryJson) else OptionJson(m.value, f => JFloat(f));
    map["name" := JStr(m.name), "type" := JStr(m.TypeName()), "value" := value,
        "timestamp" := OptionJson(m.timestamp, (t: u64) => JNum(t as int))]
  }

  /** The common fields, plus `interval.ms` for counts and summaries. */
  function TimedFields(m: Metric): (t: map<string, Json>)
    ensures forall k :: k in CommonFields(m) ==> k in t && t[k] == CommonFields(m)[k]
    ensures forall k :: k in t ==> k in CommonFields(m) || k == "interval.ms"
    ensures "interval.ms" in t <==> !m.Gauge?
    ensures !m.Gauge? ==> t["interval.ms"] == if m.interval.Some? then JNum(m.interval.value as int) else JNull
  {
    var base := CommonFields(m);
    if m.Gauge? then base else base["interval.ms" := OptionJson(m.interval, (i: u64) => JNum(i as int))]
  }

  /** The serialized form of a built-in metric: `name`, `type`, `value` and
      `timestamp` always (absent values as null), `interval.ms` for counts and
      summaries, `attributes` only when there are some, and no other key. */
  function MetricJson(m: Metric): (j: Json)
    ensures j.JObj?
    ensures forall k :: k in CommonFields(m) ==> k in j.fields && j.fields[k] == CommonFields(m)[k]
    ensures forall k :: k in j.fields ==> k in CommonFields(m) || k == "interval.ms" || k == "attributes"
    ensures "interval.ms" in j.fields <==> !m.Gauge?
    ensures "attributes" in j.fields <==> |m.attributes| > 0
    ensures !m.Gauge? ==> j.fields["interval.ms"] == if m.interval.Some? then JNum(m.interval.value as int) else JNull
    ensures |m.attributes| > 0 ==> j.fields["attributes"] == AttributesJson(m.attributes)
  {
    var timed := TimedFields(m);
    JObj(if |m.attributes| > 0 then timed["attributes" := AttributesJson(m.attributes)] else timed)
  }

  /** The serialized form loses nothing but the width of integer attribute
      values: two metrics with the same JSON have the same kind, name, value,
      timestamp and interval, and attributes with the same JSON. */
  lemma MetricJsonInjective(a: Metric, b: Metric)
    requires MetricJson(a) == MetricJson(b)
    ensures a.(attributes := b.attributes) == b
    ensures AttributesJson(a.attributes) == AttributesJson(b.attributes)
  {
    var ja, jb := MetricJson(a).fields, MetricJson(b).fields;
    assert ja["type"] == jb["type"] && ja["name"] == jb["name"];
    assert ja["value"] == jb["value"] && ja["timestamp"] == jb["timestamp"];
    CommonFieldsInjective(a, b);
    if !a.Gauge? {
      assert ja["interval.ms"] == jb["interval.ms"];
    }
    if |a.attributes| > 0 {
      assert ja["attributes"] == jb["attributes"];
    } else {
      assert "attributes" !in jb;
    }
  }

  /** The common fields determine the kind, name, value and timestamp. */
  lemma CommonFieldsInjective(a: Metric, b: Metric)
    requires CommonFields(a)["type"] == CommonFields(b)["type"] && CommonFields(a)["name"] == CommonFields(b)["name"]
    requires CommonFields(a)["value"] == CommonFields(b)["value"]
    requires CommonFields(a)["timestamp"] == CommonFields(b)["timestamp"]
    ensures a.Gauge? == b.Gauge? && a.Count? == b.Count? && a.Summary? == b.Summary?
    ensures a.name == b.name && a.timestamp == b.timestamp
    ensures a.Summary? ==> a.summary == b.summary
    ensures !a.Summary? ==> a.value == b.value
  {
    assert JStr(a.TypeName()) == JStr(b.TypeName());
    if a.Summary? && a.summary.Some? {
      SummaryJsonInjective(a.summary.value, b.summary.value);
    }
  }

  lemma SummaryJsonInjective(x: SummaryValue, y: SummaryValue)
    requires SummaryJson(x) == SummaryJson(y)
    ensures x == y
  {
    assert SummaryJson(x).fields["count"] == SummaryJson(y).fields["count"];
    assert SummaryJson(x).fields["sum"] == SummaryJson(y).fields["sum"];
    assert SummaryJson(x).fields["min"] == SummaryJson(y).fields["min"];
    assert SummaryJson(x).fields["max"] == SummaryJson(y).fields["max"];
  }

  /** The timestamp validation fills in is the one sent: the metric's own
      when it had one, otherwise the clock's reading (0 when the clock
      fails). */
  lemma StampedTimestampSent(m: Metric, now: Option<u64>)
    ensures MetricJson(Stamped(m, now)).fields["timestamp"]
      == JNum(if m.timestamp.Some? then m.timestamp.value as int else now.GetOr(0) as int)
  {
  }

  /** The JSON of the metrics whose conversion succeeds, in order; the others
      are skipped. `render` is the metric's own JSON conversion. */
  function Rendered(ms: seq<Metric>, render: Metric -> Option<Json>): seq<Json> {
    if ms == [] then []
    else
      var rest := Rendered(ms[..|ms| - 1], render);
      match render(ms[|ms| - 1])
      case Some(j) => rest + [j]
      case None => rest
  }

  /** The payload of a metric batch: a one-element array whose object holds
      the rendered metrics and, when there are common attributes, a `common`
      object holding them. Converting the common attributes fails when one
      of them does not fit 64 bits, and then there is no payload. */
  function Payload(ms: seq<Metric>, attrs: map<string, Value>, render: Metric -> Option<Json>): Option<Json> {
    var entry := map["metrics" := JArr(Rendered(ms, render))];
    if |attrs| == 0 then Some(JArr([JObj(entry)]))
    else if AttributesFit(attrs) then Some(JArr([JObj(entry["common" := JObj(map["attributes" := AttributesJson(attrs)])])]))
    else None
  }

  /** The conversion of the built-in metric kinds: it fails exactly when an
      attribute does not fit 64 bits, and otherwise gives the metric's JSON. */
  function BuiltinRender(m: Metric): (r: Option<Json>)
    ensures r.Some? <==> AttributesFit(m.attributes)
    ensures r.Some? ==> r.value == MetricJson(m)
  {
    if AttributesFit(m.attributes) then Some(MetricJson(m)) else None
  }

  /** Rendering respects concatenation, so the payload lists the metrics'
      JSON in recording order. */
  lemma {:induction false} RenderedAppend(a: seq<Metric>, b: seq<Metric>, render: Metric -> Option<Json>)
    ensures Rendered(a + b, render) == Rendered(a, render) + Rendered(b, render)
  {
    if b == [] {
      assert a + b == a;
    } else {
      var b' := b[..|b| - 1];
      assert (a + b)[..|a + b| - 1] == a + b';
      assert (a + b)[|a + b| - 1] == b[|b| - 1];
      RenderedAppend(a, b', render);
    }
  }

  /** A metric whose conversion fails contributes nothing; one that succeeds
      contributes exactly its JSON. */
  lemma RenderedOne(m: Metric, render: Metric -> Option<Json>)
    ensures Rendered([m], render) == if render(m).Some? then [render(m).value] else []
  {
    assert [m][..0] == [];
  }

  /** When every conversion succeeds, nothing is skipped: the k-th entry is
      the k-th metric's JSON. */
  lemma {:induction false} RenderedAll(ms: seq<Metric>, render: Metric -> Option<Json>)
    requires forall m :: m in ms ==> render(m).Some?
    ensures |Rendered(ms, render)| == |ms|
    ensures forall k :: 0 <= k < |ms| ==> Rendered(ms, render)[k] == render(ms[k]).value
  {
    if ms != [] {
      var init := ms[..|ms| - 1];
      assert forall m :: m in init ==> m in ms;
      RenderedAll(init, render);
      assert ms[|ms| - 1] in ms;
    }
  }

  /** With the built-in conversion every recorded metric whose attributes
      fit is listed, in recording order. */
  lemma BuiltinListsEvery(ms: seq<Metric>)
    requires forall m :: m in ms ==> AttributesFit(m.attributes)
    ensures |Rendered(ms, BuiltinRender)| == |ms|
    ensures forall k :: 0 <= k < |ms| ==> Rendered(ms, BuiltinRender)[k] == MetricJson(ms[k])
  {
    RenderedAll(ms, BuiltinRender);
  }

  /** A metric holding an attribute that does not fit 64 bits is left out of
      the payload, and the metrics around it are listed as before. */
  lemma BuiltinSkipsWide(before: seq<Metric>, m: Metric, after: seq<Metric>)
    requires !AttributesFit(m.attributes)
    ensures Rendered(before + [m] + after, BuiltinRender)
      == Rendered(before, BuiltinRender) + Rendered(after, BuiltinRender)
  {
    RenderedAppend(before + [m], after, BuiltinRender);
    RenderedAppend(before, [m], BuiltinRender);
    RenderedOne(m, BuiltinRender);
  }

  /** Failed conversions only ever shorten the list. */
  lemma {:induction false} RenderedBound(ms: seq<Metric>, render: Metric -> Option<Json>)
    ensures |Rendered(ms, render)| <= |ms|
  {
    if ms != [] {
      RenderedBound(ms[..|ms| - 1], render);
    }
  }

  /** There is a payload exactly when every common attribute fits 64 bits.
      It is one object holding the metrics and, exactly when the batch has
      common attributes, `common` with those attributes; no other key. */
  lemma PayloadShape(ms: seq<Metric>, attrs: map<string, Value>, render: Metric -> Option<Json>)
    ensures Payload(ms, attrs, render).Some? <==> AttributesFit(attrs)
    ensures var p := Payload(ms, attrs, render);
      p.Some? ==>
        && p.value.JArr? && |p.value.items| == 1 && p.value.items[0].JObj?
        && "metrics" in p.value.items[0].fields
        && p.value.items[0].fields["metrics"] == JArr(Rendered(ms, render))
        && ("common" in p.value.items[0].fields <==> |attrs| > 0)
        && (|attrs| > 0 ==> p.value.items[0].fields["common"] == JObj(map["attributes" := AttributesJson(attrs)]))
        && (forall k :: k in p.value.items[0].fields ==> k == "metrics" || k == "common")
  {
  }

  /** An empty batch without attributes is `[{"metrics": []}]`. */
  lemma EmptyPayload(render: Metric -> Option<Json>)
    ensures Payload([], map[], render) == Some(JArr([JObj(map["metrics" := JArr([])])]))
  {
  }

  /** The batch summary used in log lines: `<MetricBatch, N data points>`. */
  function BatchSummary(n: nat): (s: string)
    ensures |s| > |"<MetricBatch, "| + |" data points>"|
    ensures s[..|"<MetricBatch, "|] == "<MetricBatch, "
    ensures s[|s| - |" data points>"|..] == " data points>"
    ensures s[|"<MetricBatch, "|..|s| - |" data points>"|] == NatToString(n)
  {
    "<MetricBatch, " + NatToString(n) + " data points>"
  }

  /** The summary determines the count it reports. */
  lemma BatchSummaryInjective(a: nat, b: nat)
    requires BatchSummary(a) == BatchSummary(b)
    ensures a == b
  {
    NatToStringInjective(a, b);
  }

  class MetricBatch {
    var uuid: nat
    var metrics: seq<Metric>
    var attributes: map<string, Value>

    /** The batch as the delivery engine sees it. */
    function View(): Batch<Metric>
      reads this
    {
      Batch(uuid, metrics, attributes)
    }

    function Display(): string
      reads this
    {
      BatchSummary(|metrics|)
    }

    constructor (ids: IdSupply)
      modifies ids
      ensures uuid == old(ids.next) && ids.next == old(ids.next) + 1
      ensures metrics == [] && attributes == map[]
    {
      var id := ids.Fresh();
      uuid := id;
      metrics := [];
      attributes := map[];
    }

    /** Insert or overwrite one common attribute; the metrics are untouched. */
    method AddAttribute(key: string, value: Value)
      modifies this
      ensures attributes == old(attributes)[key := value]
      ensures metrics == old(metrics) && uuid == old(uuid)
    {
      attributes := attributes[key := value];
    }

    /** Validate and append: on failure the batch is unchanged, on success
        exactly the (timestamped) metric is appended. */
    method Record(m: Metric, now: Option<u64>) returns (r: Result<()>)
      modifies this
      ensures r.Ok? <==> Complete(m)
      ensures metrics == if r.Ok? then old(metrics) + [Stamped(m, now)] else old(metrics)
      ensures attributes == old(attributes) && uuid == old(uuid)
    {
      var filled;
      filled, r := Valid(m, now);
      if r.Err? {
        return;
      }
      metrics := metrics + [filled];
    }

    /** Keep the first half of the metrics, move the rest into a new batch
        with a copy of the common attributes; both batches get new
        identifiers, this one first. */
    method Split(ids: IdSupply) returns (b: MetricBatch)
      modifies this, ids
      ensures fresh(b)
      ensures (View(), b.View()) == SplitBatch(old(View()), old(ids.next), old(ids.next) + 1)
      ensures ids.next == old(ids.next) + 2
      ensures old(uuid) < old(ids.next) ==> uuid != old(uuid) && b.uuid != old(uuid) && b.uuid != uuid
    {
      var keep := |metrics| / 2;
      uuid := ids.Fresh();
      var id := ids.Fresh();
      b := new MetricBatch.Of(id, metrics[keep..], attributes);
      metrics := metrics[..keep];
    }

    constructor Of(uuid: nat, metrics: seq<Metric>, attributes: map<string, Value>)
      ensures View() == Batch(uuid, metrics, attributes)
    {
      this.uuid := uuid;
      this.metrics := metrics;
      this.attributes := attributes;
    }

    /** Build the payload: each metric's JSON in turn (skipping those whose
        conversion fails), then the common attributes if there are any;
        fails when a common attribute does not fit 64 bits. */
    method Marshall(render: Metric -> Option<Json>) returns (data: Option<Json>)
      ensures data == Payload(metrics, attributes, render)
    {
      var jsonMetrics := [];
      for i := 0 to |metrics|
        invariant jsonMetrics == Rendered(metrics[..i], render)
      {
        assert metrics[..i + 1][..i] == metrics[..i];
        match render(metrics[i])
        case Some(j) => jsonMetrics := jsonMetrics + [j];
        case None =>
      }
      assert metrics[..|metrics|] == metrics;
      var entry := map["metrics" := JArr(jsonMetrics)];
      if |attributes| > 0 {
        if !AttributesFit(attributes) {
          return None;
        }
        entry := entry["common" := JObj(map["attributes" := AttributesJson(attributes)])];
      }
      data := Some(JArr([JObj(entry)]));
    }
  }
}
