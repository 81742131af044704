/** Distributed-tracing spans: an identifier, the trace it belongs to and a
    start time, with in-place setters and builder-style forms. */
module Spans {
  import opened Common
  import opened Numeric
  import opened JsonTree

  /** The three fields of a span, as a value. */
  datatype SpanData = SpanData(id: string, traceId: string, timestamp: u64)

  /** The serialized form: an object with exactly the keys `id`, `trace.id`
      and `timestamp`. */
  function SpanJson(d: SpanData): (j: Json)
    ensures j.JObj? && j.fields.Keys == {"id", "trace.id", "timestamp"}
  {
    JObj(map["id" := JStr(d.id), "trace.id" := JStr(d.traceId), "timestamp" := JNum(d.timestamp as int)])
  }

  /** Reads a span back from its serialized form. */
  function SpanFromJson(j: Json): Option<SpanData> {
    if j.JObj? && j.fields.Keys == {"id", "trace.id", "timestamp"}
       && j.fields["id"].JStr? && j.fields["trace.id"].JStr? && j.fields["timestamp"].JNum?
       && 0 <= j.fields["timestamp"].n < U64_LIMIT
    then Some(SpanData(j.fields["id"].s, j.fields["trace.id"].s, j.fields["timestamp"].n as u64))
    else None
  }

  /** Serialization loses nothing: every span is recovered from its JSON. */
  lemma SpanJsonRoundTrip(d: SpanData)
    ensures SpanFromJson(SpanJson(d)) == Some(d)
  {
  }

  class Span {
    var id: string
    var traceId: string
    var timestamp: u64

    function View(): SpanData
      reads this
    {
      SpanData(id, traceId, timestamp)
    }

    function ToJson(): Json
      reads this
    {
      SpanJson(View())
    }

    constructor (id: string, traceId: string, timestamp: u64)
      ensures View() == SpanData(id, traceId, timestamp)
    {
      this.id := id;
      this.traceId := traceId;
      this.timestamp := timestamp;
    }

    method SetId(id: string)
      modifies this
      ensures View() == old(View()).(id := id)
    {
      this.id := id;
    }

    /** Builder form of `SetId`: the span is updated and handed back. */
    method Id(id: string) returns (s: Span)
      modifies this
      ensures s == this && View() == old(View()).(id := id)
    {
      this.id := id;
      s := this;
    }

    method SetTraceId(traceId: string)
      modifies this
      ensures View() == old(View()).(traceId := traceId)
    {
      this.traceId := traceId;
    }

    method TraceId(traceId: string) returns (s: Span)
      modifies this
      ensures s == this && View() == old(View()).(traceId := traceId)
    {
      this.traceId := traceId;
      s := this;
    }

    method SetTimestamp(timestamp: u64)
      modifies this
      ensures View() == old(View()).(timestamp := timestamp)
    {
      this.timestamp := timestamp;
    }

    method Timestamp(timestamp: u64) returns (s: Span)
      modifies this
      ensures s == this && View() == old(View()).(timestamp := timestamp)
    {
      this.timestamp := timestamp;
      s := this;
    }
  }

  /** The source's setter scenarios: each write, in place or builder-style,
      leaves the value last written and the other fields as they were. */
  method SetterScenarios()
  {
    var span := new Span("id1", "traceId1", 1);
    span.SetId("id2");
    assert span.View() == SpanData("id2", "traceId1", 1);
    span := span.Id("id3");
    assert span.View() == SpanData("id3", "traceId1", 1);
    span.SetTraceId("traceId2");
    span := span.TraceId("traceId3");
    assert span.View() == SpanData("id3", "traceId3", 1);
    span.SetTimestamp(2);
    span := span.Timestamp(3);
    assert span.View() == SpanData("id3", "traceId3", 3);
    assert span.ToJson().fields["trace.id"] == JStr("traceId3");
  }
}
