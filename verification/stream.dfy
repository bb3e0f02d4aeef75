/** The record stream every driver reads: fixed-length reads until a short one, and the
    two-character record tag at the front of each record. */
module Stream {
  import opened PyStr
  import opened Cp500

  /** The records a `while True: record = f.read(size)` loop handles, given the successive
      reads `chunks`: every read up to, not including, the first one that is empty or shorter
      than `size`. */
  function FullRecords(chunks: seq<Bytes>, size: nat): (records: seq<Bytes>)
    ensures |records| <= |chunks| && records == chunks[..|records|]
    ensures forall k :: 0 <= k < |records| ==> records[k] != [] && |records[k]| >= size
    ensures |records| < |chunks| ==> chunks[|records|] == [] || |chunks[|records|]| < size
  {
    if chunks == [] || chunks[0] == [] || |chunks[0]| < size then []
    else [chunks[0]] + FullRecords(chunks[1..], size)
  }

  /** A read loop that stops at read `i`, because the reads ran out or read `i` came up short,
      has handled every full record. */
  lemma FullRecordsEnd(chunks: seq<Bytes>, size: nat, i: nat)
    requires i <= |FullRecords(chunks, size)|
    requires i == |chunks| || chunks[i] == [] || |chunks[i]| < size
    ensures FullRecords(chunks, size)[..i] == FullRecords(chunks, size)
  {
  }

  /** `record[0:2].decode('cp500')`. */
  function Tag(record: Bytes): (tag: string)
    ensures |record| >= 2 ==> |tag| == 2
  {
    Decode(Slice(record, 0, 2))
  }

  /** Two records have the same tag exactly when their first two bytes are the same: the
      dispatch depends on those bytes and on nothing else. */
  lemma TagIsFirstTwoBytes(r1: Bytes, r2: Bytes)
    requires |r1| >= 2 && |r2| >= 2
    ensures Tag(r1) == Tag(r2) <==> r1[..2] == r2[..2]
  {
    if Tag(r1) == Tag(r2) {
      DecodeInjective(Slice(r1, 0, 2), Slice(r2, 0, 2));
    }
  }

  /** How many of the records carry the given tag. */
  function CountTag(records: seq<Bytes>, tag: string): (n: nat)
    ensures n <= |records|
  {
    if records == [] then 0
    else CountTag(records[..|records| - 1], tag) + (if Tag(records[|records| - 1]) == tag then 1 else 0)
  }
}
