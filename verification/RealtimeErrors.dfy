/** Realtime error records, their 64-bit packing, and the bounded batch with its overflow marker. */
module RealtimeErrors {
  import opened Basics

  const CAPACITY: nat := 8
  const OVERFLOW_CODE: u16 := 0xFFFF

  datatype Record = Record(code: u16, context: u16, value: u32)

  const EMPTY_RECORD := Record(0, 0, 0)

  /** The three fields occupy disjoint bit ranges, so the source's shifts and bitwise ors are these
      products and sums. */
  function Pack(e: Record): u64 {
    e.code + e.context * 0x1_0000 + e.value * 0x1_0000_0000
  }

  /** The source's right shifts and masks. */
  function Unpack(packed: u64): Record {
    Record(packed % 0x1_0000, (packed / 0x1_0000) % 0x1_0000, (packed / 0x1_0000_0000) % 0x1_0000_0000)
  }

  /** Packing loses nothing, and every 64-bit word is the packing of exactly one record. */
  lemma PackIsBijective(e: Record, packed: u64)
    ensures Unpack(Pack(e)) == e
    ensures Pack(Unpack(packed)) == packed
  {
    var high := e.context + e.value * 0x1_0000;
    assert Pack(e) == e.code + high * 0x1_0000;
    assert Pack(e) / 0x1_0000 == high;
    assert packed / 0x1_0000_0000 == packed / 0x1_0000 / 0x1_0000;
  }

  function PackMetadata(count: u32, overflowCount: u32): u64 {
    count + overflowCount * 0x1_0000_0000
  }

  function MetadataCount(metadata: u64): u32 {
    metadata % 0x1_0000_0000
  }

  function MetadataOverflow(metadata: u64): u32 {
    metadata / 0x1_0000_0000
  }

  lemma MetadataUnpacks(count: u32, overflowCount: u32)
    ensures MetadataCount(PackMetadata(count, overflowCount)) == count
    ensures MetadataOverflow(PackMetadata(count, overflowCount)) == overflowCount
  {
  }

  /** The value of a batch: eight records, how many are in use, and how many errors the marker
      stands for. */
  datatype Batch = Batch(records: seq<Record>, count: u32, overflowCount: u32)

  function Blank(n: nat): (r: seq<Record>)
    ensures |r| == n && forall k :: 0 <= k < n ==> r[k] == EMPTY_RECORD
  {
    seq(n, _ => EMPTY_RECORD)
  }

  function EmptyBatch(): Batch {
    Batch(Blank(CAPACITY), 0, 0)
  }

  function SaturatedIncrement(value: u32): u32 {
    if value == U32_MAX then value else value + 1
  }

  function OverflowRecord(overflowCount: u32): Record {
    Record(OVERFLOW_CODE, 0, overflowCount)
  }

  class ErrorBatch {
    var records: array<Record>
    var count: u32
    var overflowCount: u32

    ghost predicate Valid()
      reads this
    {
      records.Length == CAPACITY && count <= CAPACITY
    }

    ghost function Value(): Batch
      reads this, records
    {
      Batch(records[..], count, overflowCount)
    }

    constructor ()
      ensures Valid() && fresh(records) && Value() == EmptyBatch()
    {
      records := new Record[CAPACITY](_ => EMPTY_RECORD);
      count, overflowCount := 0, 0;
    }

    method Clear()
      requires Valid()
      modifies this, records
      ensures Valid() && records == old(records) && Value() == EmptyBatch()
    {
      for i := 0 to records.Length
        invariant forall k :: 0 <= k < i ==> records[k] == EMPTY_RECORD
        modifies records
      {
        records[i] := EMPTY_RECORD;
      }
      count, overflowCount := 0, 0;
    }

    method Push(error: Record) returns (stored: bool)
      requires Valid()
      modifies this, records
      ensures Valid() && records == old(records)
      ensures Value() == Pushed(old(Value()), error)
      ensures stored <==> old(overflowCount) == 0 && old(count) < CAPACITY
    {
      if overflowCount != 0 {
        overflowCount := SaturatedIncrement(overflowCount);
        records[CAPACITY - 1] := OverflowRecord(overflowCount);
        return false;
      }
      if count < CAPACITY {
        records[count] := error;
        count := count + 1;
        return true;
      }
      overflowCount := 2;
      records[CAPACITY - 1] := OverflowRecord(overflowCount);
      return false;
    }
  }

  function Pushed(b: Batch, error: Record): Batch
    requires |b.records| == CAPACITY && b.count <= CAPACITY
  {
    if b.overflowCount != 0 then
      var o := SaturatedIncrement(b.overflowCount);
      Batch(b.records[CAPACITY - 1 := OverflowRecord(o)], b.count, o)
    else if b.count < CAPACITY then
      Batch(b.records[b.count := error], b.count + 1, 0)
    else
      Batch(b.records[CAPACITY - 1 := OverflowRecord(2)], b.count, 2)
  }

  function PushAll(errors: seq<Record>): (b: Batch)
    ensures |b.records| == CAPACITY && b.count <= CAPACITY
  {
    if errors == [] then EmptyBatch() else Pushed(PushAll(errors[..|errors| - 1]), errors[|errors| - 1])
  }

  /** What a batch holds after any number of pushes: up to eight errors verbatim; from the ninth on,
      the first seven and a marker that stands for every other error, saturating at 2^32 - 1. */
  lemma {:induction false} BatchAfterPushes(errors: seq<Record>)
    ensures var b := PushAll(errors); var n := |errors|;
            if n <= CAPACITY then
              b == Batch(errors + Blank(CAPACITY - n), n, 0)
            else
              var omitted := Min(n - 7, U32_MAX);
              b == Batch(errors[..7] + [OverflowRecord(omitted)], CAPACITY, omitted)
  {
    if errors != [] {
      var n := |errors| - 1;
      BatchAfterPushes(errors[..n]);
      if n >= CAPACITY {
        assert errors[..n][..7] == errors[..7];
      }
    }
  }
}
