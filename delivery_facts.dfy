/** Properties of a whole delivery: how many requests one batch costs, the
    waits between them, and the runs the client's own tests describe. */
module DeliveryFacts {
  import opened Common
  import opened Sendable
  import opened Delivery
  import opened JsonTree
  import opened Attribute
  import opened Metrics

  /** The number of requests among `events`. */
  function Posts(events: seq<Event>): nat {
    if events == [] then 0 else (if events[0].Posted? then 1 else 0) + Posts(events[1..])
  }

  lemma {:induction false} PostsAppend(a: seq<Event>, b: seq<Event>)
    ensures Posts(a + b) == Posts(a) + Posts(b)
  {
    if a == [] {
      assert a + b == b;
    } else {
      assert (a + b)[1..] == a[1..] + b;
      PostsAppend(a[1..], b);
    }
  }

  /** No scripted reply asks for a split. */
  predicate NoSplitReply(script: seq<Reply>) {
    forall k :: 0 <= k < |script| ==> script[k].TransportError? || script[k].status != 413
  }

  /** Without 413 replies, attempts `i`, `i+1`, ... make at most one request
      per remaining entry of the backoff sequence. */
  lemma {:induction false} AttemptsBound<R>(c: Client, codec: Codec<R>, b: Batch<R>, i: nat, script: seq<Reply>, nextId: nat)
    requires i <= |c.backoff| && NoSplitReply(script)
    ensures Posts(Attempts(c, codec, b, i, script, nextId).events) <= |c.backoff| - i
    decreases |c.backoff| - i
  {
    if i < |c.backoff| && BuildRequest(c, b, codec).Some? && script != [] && script[0].Response? {
      var req := BuildRequest(c, b, codec).value;
      var state := ProcessResponse(script[0].status, script[0].retryAfter);
      if state.Retry? {
        RetryWaitsThenContinues(c, codec, b, i, script, nextId);
        var rest := Attempts(c, codec, b, i + 1, script[1..], nextId);
        assert NoSplitReply(script[1..]) by {
          forall k | 0 <= k < |script[1..]|
            ensures script[1..][k].TransportError? || script[1..][k].status != 413
          {
            assert script[1..][k] == script[k + 1];
          }
        }
        AttemptsBound(c, codec, b, i + 1, script[1..], nextId);
        PostsAppend([Posted(req), Slept(WaitAfter(state, c.backoff[i]))], rest.events);
      }
    }
  }

  /** A batch that is never split costs at most one request per entry of
      the backoff sequence, so at most `retries_max` in total. */
  lemma DeliverBound<R>(c: Client, codec: Codec<R>, b: Batch<R>, script: seq<Reply>, nextId: nat)
    requires NoSplitReply(script)
    ensures Posts(Deliver(c, codec, b, script, nextId).events) <= |c.backoff|
  {
    AttemptsBound(c, codec, b, 0, script, nextId);
  }

  /** A delivery reads replies from the front of the script: what it leaves
      unread is a suffix of what it was given. */
  lemma {:induction false} DeliverSuffix<R>(c: Client, codec: Codec<R>, b: Batch<R>, script: seq<Reply>, nextId: nat)
    ensures var r := Deliver(c, codec, b, script, nextId);
      r.script == script[|script| - |r.script|..]
    decreases |script|, |c.backoff| + 1
  {
    AttemptsSuffix(c, codec, b, 0, script, nextId);
  }

  lemma {:induction false} AttemptsSuffix<R>(c: Client, codec: Codec<R>, b: Batch<R>, i: nat, script: seq<Reply>, nextId: nat)
    requires i <= |c.backoff|
    ensures var r := Attempts(c, codec, b, i, script, nextId);
      r.script == script[|script| - |r.script|..]
    decreases |script|, |c.backoff| - i
  {
    var r := Attempts(c, codec, b, i, script, nextId);
    if i == |c.backoff| {
      assert r.script == script;
    } else if BuildRequest(c, b, codec).None? {
      EncodeFailureEnds(c, codec, b, i, script, nextId);
      assert r.script == script;
    } else if script == [] || script[0].TransportError? {
      TransportFailureEnds(c, codec, b, i, script, nextId);
    } else if script[0].status == 413 {
      SplitSuffix(c, codec, b, i, script, nextId);
    } else if ProcessResponse(script[0].status, script[0].retryAfter) == Done {
      StopsAtDone(c, codec, b, i, script, nextId);
    } else {
      var rest := script[1..];
      RetryWaitsThenContinues(c, codec, b, i, script, nextId);
      AttemptsSuffix(c, codec, b, i + 1, rest, nextId);
      assert r.script == rest[|rest| - |r.script|..];
    }
  }

  /** The 413 case of `AttemptsSuffix`: both halves read from the front of
      what the rejected request left. */
  lemma {:induction false} SplitSuffix<R>(c: Client, codec: Codec<R>, b: Batch<R>, i: nat, script: seq<Reply>, nextId: nat)
    requires i < |c.backoff| && BuildRequest(c, b, codec).Some?
    requires script != [] && script[0].Response? && script[0].status == 413
    ensures var r := Attempts(c, codec, b, i, script, nextId);
      r.script == script[|script| - |r.script|..]
    decreases |script|, 0
  {
    var r := Attempts(c, codec, b, i, script, nextId);
    var rest := script[1..];
    SplitDeliversKeptFirst(c, codec, b, i, script, nextId);
    var (kept, returned) := SplitBatch(b, nextId, nextId + 1);
    var first := Deliver(c, codec, kept, rest, nextId + 2);
    DeliverSuffix(c, codec, kept, rest, nextId + 2);
    DeliverSuffix(c, codec, returned, first.script, first.nextId);
    assert r.script == first.script[|first.script| - |r.script|..];
    assert r.script == rest[|rest| - |r.script|..];
  }

  lemma NoSplitSuffix(script: seq<Reply>, k: nat)
    requires k <= |script| && NoSplitReply(script)
    ensures NoSplitReply(script[k..])
  {
    forall j | 0 <= j < |script[k..]|
      ensures script[k..][j] == script[k + j]
    {
    }
  }

  /** A client configured with no retries sends nothing at all. */
  lemma NoRetriesNoRequests<R>(c: Client, codec: Codec<R>, b: Batch<R>, script: seq<Reply>, nextId: nat)
    requires c.backoff == []
    ensures Deliver(c, codec, b, script, nextId) == Run([], script, nextId)
  {
  }

  // ---------------------------------------------------------------------
  // Runs in which every reply asks for a retry

  /** The first `n` replies are all responses classified as retryable. */
  predicate AllRetry(script: seq<Reply>, n: nat) {
    n <= |script|
    && forall k :: 0 <= k < n ==>
         script[k].Response? && ProcessResponse(script[k].status, script[k].retryAfter).Retry?
  }

  lemma AllRetryRest(script: seq<Reply>, n: nat)
    requires n >= 1 && AllRetry(script, n)
    ensures AllRetry(script[1..], n - 1)
  {
    forall k | 0 <= k < n - 1
      ensures script[1..][k] == script[k + 1]
    {
    }
  }

  /** The wait after each retryable reply: the server's delay when it gave
      one, otherwise the matching entry of `delays`. */
  function Waits(delays: seq<nat>, script: seq<Reply>): (w: seq<nat>)
    requires AllRetry(script, |delays|)
    ensures |w| == |delays|
    ensures forall k :: 0 <= k < |w| ==>
      w[k] == WaitAfter(ProcessResponse(script[k].status, script[k].retryAfter), delays[k])
  {
    if delays == [] then []
    else
      AllRetryRest(script, |delays|);
      [WaitAfter(ProcessResponse(script[0].status, script[0].retryAfter), delays[0])] + Waits(delays[1..], script[1..])
  }

  /** One request followed by one wait, for each wait in turn. */
  function RetryTrace(req: Request, waits: seq<nat>): seq<Event> {
    if waits == [] then [] else [Posted(req), Slept(waits[0])] + RetryTrace(req, waits[1..])
  }

  lemma {:induction false} RetryTracePosts(req: Request, waits: seq<nat>)
    ensures Posts(RetryTrace(req, waits)) == |waits|
  {
    if waits != [] {
      RetryTracePosts(req, waits[1..]);
      PostsAppend([Posted(req), Slept(waits[0])], RetryTrace(req, waits[1..]));
    }
  }

  /** When every reply asks for a retry, every remaining entry of the
      sequence is used: one request per entry, each followed by its wait
      (including a wait after the last request), and then the batch is
      given up with the rest of the script unread. */
  lemma {:induction false} AllRetriesTrace<R>(c: Client, codec: Codec<R>, b: Batch<R>, i: nat, script: seq<Reply>, nextId: nat)
    requires i <= |c.backoff| && BuildRequest(c, b, codec).Some?
    requires AllRetry(script, |c.backoff| - i)
    ensures Attempts(c, codec, b, i, script, nextId)
      == Run(RetryTrace(BuildRequest(c, b, codec).value, Waits(c.backoff[i..], script)),
             script[|c.backoff| - i..], nextId)
    decreases |c.backoff| - i
  {
    if i < |c.backoff| {
      RetryWaitsThenContinues(c, codec, b, i, script, nextId);
      AllRetryRest(script, |c.backoff| - i);
      AllRetriesTrace(c, codec, b, i + 1, script[1..], nextId);
      assert c.backoff[i..][1..] == c.backoff[i + 1..];
      assert script[1..][|c.backoff| - (i + 1)..] == script[|c.backoff| - i..];
    } else {
      assert script[0..] == script;
    }
  }

  /** Three retries with a zero backoff factor and a server answering 500
      every time: three requests, each followed by a zero wait, and the
      batch is given up. */
  lemma BackoffScenario<R>(c: Client, codec: Codec<R>, b: Batch<R>, script: seq<Reply>, nextId: nat)
    requires BackoffFits(0, 3) && c.backoff == BackoffSequence(0, 3)
    requires BuildRequest(c, b, codec).Some?
    requires |script| >= 3 && forall k :: 0 <= k < 3 ==> script[k] == Response(500, None)
    ensures var r := Deliver(c, codec, b, script, nextId);
      r.events == RetryTrace(BuildRequest(c, b, codec).value, [0, 0, 0])
      && Posts(r.events) == 3 && r.script == script[3..]
  {
    var req := BuildRequest(c, b, codec).value;
    assert c.backoff == [0, 0, 0];
    AllRetriesTrace(c, codec, b, 0, script, nextId);
    assert Waits(c.backoff[0..], script) == [0, 0, 0];
    RetryTracePosts(req, [0, 0, 0]);
  }

  /** Five retries with an hour-long backoff factor and a server answering
      429 with `Retry-After: 0` every time: the server's delay replaces every
      entry of the sequence, so all five waits are zero. */
  lemma RetryAfterScenario<R>(c: Client, codec: Codec<R>, b: Batch<R>, script: seq<Reply>, nextId: nat)
    requires BackoffFits(3600, 5) && c.backoff == BackoffSequence(3600, 5)
    requires BuildRequest(c, b, codec).Some?
    requires |script| >= 5 && forall k :: 0 <= k < 5 ==> script[k] == Response(429, Some("0"))
    ensures var r := Deliver(c, codec, b, script, nextId);
      r.events == RetryTrace(BuildRequest(c, b, codec).value, [0, 0, 0, 0, 0])
      && Posts(r.events) == 5
  {
    RetryAfterExamples();
    assert |c.backoff| == 5;
    AllRetriesTrace(c, codec, b, 0, script, nextId);
    assert Waits(c.backoff[0..], script) == [0, 0, 0, 0, 0];
    RetryTracePosts(BuildRequest(c, b, codec).value, [0, 0, 0, 0, 0]);
  }

  /** A code that drops the payload ends the delivery after one request. */
  lemma DropScenario<R>(c: Client, codec: Codec<R>, b: Batch<R>, script: seq<Reply>, nextId: nat)
    requires |c.backoff| >= 1 && BuildRequest(c, b, codec).Some?
    requires script != [] && script[0].Response? && IsDropCode(script[0].status)
    ensures Deliver(c, codec, b, script, nextId)
      == Run([Posted(BuildRequest(c, b, codec).value)], script[1..], nextId)
  {
    StopsAtDone(c, codec, b, 0, script, nextId);
  }

  /** A four-record batch answered 413, then 202 twice: the original request,
      then the kept half (the first two records, under the first fresh
      identifier), then the returned half (the last two, under the second). */
  lemma SplitScenario<R>(c: Client, codec: Codec<R>, b: Batch<R>, script: seq<Reply>, nextId: nat)
    requires |c.backoff| >= 1 && |b.records| == 4
    requires BuildRequest(c, b, codec).Some?
    requires BuildRequest(c, Batch(nextId, b.records[..2], b.common), codec).Some?
    requires BuildRequest(c, Batch(nextId + 1, b.records[2..], b.common), codec).Some?
    requires |script| == 3 && script[0] == Response(413, None)
    requires script[1] == Response(202, None) && script[2] == Response(202, None)
    ensures var kept := Batch(nextId, b.records[..2], b.common);
      var returned := Batch(nextId + 1, b.records[2..], b.common);
      Deliver(c, codec, b, script, nextId)
      == Run([Posted(BuildRequest(c, b, codec).value),
              Posted(BuildRequest(c, kept, codec).value),
              Posted(BuildRequest(c, returned, codec).value)], [], nextId + 2)
  {
    var (kept, returned) := SplitBatch(b, nextId, nextId + 1);
    assert kept == Batch(nextId, b.records[..2], b.common);
    SplitDeliversKeptFirst(c, codec, b, 0, script, nextId);
    StopsAtDone(c, codec, kept, 0, script[1..], nextId + 2);
    StopsAtDone(c, codec, returned, 0, script[2..], nextId + 2);
  }

  /** How a metric batch becomes a body: `MetricBatch.Marshall` with the
      built-in conversion, written out as text by `text`, then gzip. */
  function MetricCodec(text: Json -> string, gzip: string -> Option<seq<bv8>>): Codec<Metric> {
    Codec(
      (b: Batch<Metric>) =>
        var p := Payload(b.records, b.common, BuiltinRender);
        if p.Some? then Some(text(p.value)) else None,
      gzip)
  }

  /** A common attribute that does not fit 64 bits makes marshalling fail,
      so the batch is dropped: no request is sent and no reply is used. */
  lemma WideCommonAttributeDropped(c: Client, text: Json -> string, gzip: string -> Option<seq<bv8>>,
                                   b: Batch<Metric>, script: seq<Reply>, nextId: nat)
    requires !AttributesFit(b.common)
    ensures Deliver(c, MetricCodec(text, gzip), b, script, nextId) == Run([], script, nextId)
  {
    PayloadShape(b.records, b.common, BuiltinRender);
    assert BuildRequest(c, b, MetricCodec(text, gzip)).None?;
  }
}
