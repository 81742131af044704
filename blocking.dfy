/** The blocking client's worker: batches are queued by the caller, and each
    cycle of the worker takes everything queued, keeps at most `queueMax` of
    them in arrival order, drops the rest, and delivers the ones it kept. */
module Blocking {
  import opened Common
  import opened Sendable
  import opened Delivery
  import opened DeliveryFacts

  /** The batches a cycle keeps out of those it drained: the first
      `queueMax`, in the order they arrived. */
  function Retain<T>(drained: seq<T>, queueMax: nat): seq<T> {
    if |drained| > queueMax then drained[..queueMax] else drained
  }

  /** Over the limit, exactly the first `queueMax` batches are kept and the
      other `n - queueMax` (the latest arrivals) dropped; within the limit
      all are kept. */
  lemma RetainPolicy<T>(drained: seq<T>, queueMax: nat)
    ensures var kept := Retain(drained, queueMax);
      && kept + drained[|kept|..] == drained
      && (|drained| > queueMax ==> |kept| == queueMax && |drained| - |kept| == |drained| - queueMax)
      && (|drained| <= queueMax ==> kept == drained)
  {
    var kept := Retain(drained, queueMax);
    assert kept + drained[|kept|..] == drained;
  }

  /** Retaining never reorders: what is kept is the longest prefix allowed. */
  lemma RetainIsPrefix<T>(drained: seq<T>, queueMax: nat, k: nat)
    requires k < |Retain(drained, queueMax)|
    ensures Retain(drained, queueMax)[k] == drained[k] && k < queueMax
  {
  }

  /** Deliver the batches one after the other, each on the replies the ones
      before it left over. */
  function DeliverAll<R>(c: Client, codec: Codec<R>, batches: seq<Batch<R>>, script: seq<Reply>, nextId: nat): (r: Run)
    ensures |r.script| <= |script| && r.nextId >= nextId
    decreases |batches|
  {
    if batches == [] then Run([], script, nextId)
    else
      var before := DeliverAll(c, codec, batches[..|batches| - 1], script, nextId);
      var last := Deliver(c, codec, batches[|batches| - 1], before.script, before.nextId);
      Run(before.events + last.events, last.script, last.nextId)
  }

  lemma {:induction false} DeliverAllSuffix<R>(c: Client, codec: Codec<R>, batches: seq<Batch<R>>, script: seq<Reply>, nextId: nat)
    ensures var r := DeliverAll(c, codec, batches, script, nextId);
      r.script == script[|script| - |r.script|..]
    decreases |batches|
  {
    if batches != [] {
      var before := DeliverAll(c, codec, batches[..|batches| - 1], script, nextId);
      var r := DeliverAll(c, codec, batches, script, nextId);
      DeliverAllSuffix(c, codec, batches[..|batches| - 1], script, nextId);
      DeliverSuffix(c, codec, batches[|batches| - 1], before.script, before.nextId);
      assert r.script == before.script[|before.script| - |r.script|..];
    } else {
      assert script[|script|..] == [];
    }
  }

  /** Without 413 replies, delivering `n` batches costs at most `n` times
      the length of the backoff sequence in requests. */
  lemma {:induction false} DeliverAllBound<R>(c: Client, codec: Codec<R>, batches: seq<Batch<R>>, script: seq<Reply>, nextId: nat)
    requires NoSplitReply(script)
    ensures Posts(DeliverAll(c, codec, batches, script, nextId).events) <= |batches| * |c.backoff|
    decreases |batches|
  {
    if batches != [] {
      var init := batches[..|batches| - 1];
      var before := DeliverAll(c, codec, init, script, nextId);
      DeliverAllBound(c, codec, init, script, nextId);
      DeliverAllSuffix(c, codec, init, script, nextId);
      NoSplitSuffix(script, |script| - |before.script|);
      DeliverBound(c, codec, batches[|batches| - 1], before.script, before.nextId);
      PostsAppend(before.events, Deliver(c, codec, batches[|batches| - 1], before.script, before.nextId).events);
      assert |init| * |c.backoff| + |c.backoff| == |batches| * |c.backoff|;
    }
  }

  /** The batches a cycle drops cost no request: without 413 replies one
      cycle makes at most `queueMax` times the length of the backoff
      sequence in requests, however many batches were queued. */
  lemma WorkerCycleBound<R>(c: Client, codec: Codec<R>, queued: seq<Batch<R>>, queueMax: nat, script: seq<Reply>, nextId: nat)
    requires NoSplitReply(script)
    ensures Posts(DeliverAll(c, codec, Retain(queued, queueMax), script, nextId).events) <= queueMax * |c.backoff|
  {
    var kept := Retain(queued, queueMax);
    DeliverAllBound(c, codec, kept, script, nextId);
    assert |kept| * |c.backoff| <= queueMax * |c.backoff|;
  }

  /** A queue of batches waiting for the worker, bounded per cycle. */
  class BlockingQueue<R> {
    var channel: seq<Batch<R>>
    const queueMax: nat

    /** The queue of a new blocking client: empty, with the limit read from
        the builder the client is made from. */
    constructor (builder: ClientBuilder)
      ensures channel == [] && queueMax == builder.View().blockingQueueMax
    {
      channel := [];
      queueMax := builder.blockingQueueMax;
    }

    /** The caller hands a batch to the worker. */
    method Submit(b: Batch<R>)
      modifies this
      ensures channel == old(channel) + [b]
    {
      channel := channel + [b];
    }

    /** The worker's drain: the first batch it waited for, then everything
        else queued, truncated to the first `queueMax`; `dropped` is how
        many were cut. The cycle starts once a batch has arrived. */
    method DrainCycle() returns (batches: seq<Batch<R>>, dropped: nat)
      requires channel != []
      modifies this
      ensures channel == []
      ensures batches == Retain(old(channel), queueMax)
      ensures dropped == |old(channel)| - |batches|
    {
      batches := [channel[0]];
      channel := channel[1..];
      while channel != []
        invariant batches + channel == old(channel)
        decreases |channel|
      {
        batches := batches + [channel[0]];
        channel := channel[1..];
      }
      dropped := 0;
      if |batches| > queueMax {
        dropped := |batches| - queueMax;
        batches := batches[..queueMax];
      }
    }

    /** One cycle of the worker: drain, then deliver every kept batch in
        arrival order. */
    method WorkerCycle(c: Client, codec: Codec<R>, net: Network, ids: IdSupply) returns (dropped: nat)
      requires channel != []
      modifies this, net, ids
      ensures channel == []
      ensures var kept := Retain(old(channel), queueMax);
        var r := DeliverAll(c, codec, kept, old(net.script), old(ids.next));
        dropped == |old(channel)| - |kept|
        && net.log == old(net.log) + r.events && net.script == r.script && ids.next == r.nextId
    {
      var batches;
      batches, dropped := DrainCycle();
      for k := 0 to |batches|
        invariant channel == []
        invariant var r := DeliverAll(c, codec, batches[..k], old(net.script), old(ids.next));
          net.log == old(net.log) + r.events && net.script == r.script && ids.next == r.nextId
      {
        assert batches[..k + 1][..k] == batches[..k];
        ghost var before := DeliverAll(c, codec, batches[..k], old(net.script), old(ids.next));
        ghost var last := Deliver(c, codec, batches[k], net.script, ids.next);
        Send(c, codec, batches[k], net, ids);
        AppendAssociates(old(net.log), before.events, last.events);
      }
      assert batches[..|batches|] == batches;
    }
  }

  /** Ten batches queued against a limit of one: the cycle keeps the first
      and drops nine, and when the server accepts it exactly one request
      is sent, the first batch's. */
  lemma BackpressureScenario<R>(c: Client, codec: Codec<R>, queued: seq<Batch<R>>, script: seq<Reply>, nextId: nat)
    requires |queued| == 10 && |c.backoff| >= 1 && BuildRequest(c, queued[0], codec).Some?
    requires script != [] && script[0] == Response(202, None)
    ensures Retain(queued, 1) == [queued[0]] && |queued| - |Retain(queued, 1)| == 9
    ensures var r := DeliverAll(c, codec, Retain(queued, 1), script, nextId);
      r.events == [Posted(BuildRequest(c, queued[0], codec).value)] && Posts(r.events) == 1
      && r.script == script[1..]
  {
    var kept := Retain(queued, 1);
    assert kept == [queued[0]];
    assert kept[..0] == [];
    StopsAtDone(c, codec, queued[0], 0, script, nextId);
  }
}
