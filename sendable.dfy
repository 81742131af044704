/** What the delivery engine needs of a payload: an identifier, records it
    can be split on, and attributes common to all records. Identifiers come
    from a supply that never repeats one, standing in for random v4 UUIDs. */
module Sendable {
  import opened Attribute

  datatype Batch<R> = Batch(uuid: nat, records: seq<R>, common: map<string, Value>)

  /** Splitting keeps the first half of the records in place (under the
      identifier `keptId`) and moves the rest into a new batch (under
      `newId`); both halves carry the common attributes. */
  function SplitBatch<R>(b: Batch<R>, keptId: nat, newId: nat): (halves: (Batch<R>, Batch<R>))
    ensures |halves.0.records| == |b.records| / 2
    ensures halves.0.records + halves.1.records == b.records
    ensures halves.0.common == b.common && halves.1.common == b.common
    ensures halves.0.uuid == keptId && halves.1.uuid == newId
  {
    var n := |b.records| / 2;
    (Batch(keptId, b.records[..n], b.common), Batch(newId, b.records[n..], b.common))
  }

  /** The half kept in place is never the larger one, and the two halves
      differ in size by at most one record. */
  lemma SplitSizes<R>(b: Batch<R>, keptId: nat, newId: nat)
    ensures var (kept, returned) := SplitBatch(b, keptId, newId);
      |kept.records| + |returned.records| == |b.records|
      && |kept.records| <= |returned.records| <= |kept.records| + 1
  {
    var (kept, returned) := SplitBatch(b, keptId, newId);
    assert |kept.records + returned.records| == |b.records|;
  }

  /** A supply of identifiers: each one handed out is larger than every
      earlier one, so none repeats. */
  class IdSupply {
    var next: nat

    constructor (start: nat)
      ensures next == start
    {
      next := start;
    }

    method Fresh() returns (id: nat)
      modifies this
      ensures id == old(next) && next == old(next) + 1
    {
      id := next;
      next := next + 1;
    }
  }
}
