/** Positions in a stream. */
module Offsets {
  datatype Offset = Offset(readSeq: nat, byteOffset: nat)

  const ZERO_OFFSET := Offset(0, 0)

  function Add(o: Offset, bytes: nat): Offset {
    Offset(o.readSeq, o.byteOffset + bytes)
  }

  function Compare(a: Offset, b: Offset): int {
    if a.readSeq < b.readSeq then -1
    else if a.readSeq > b.readSeq then 1
    else if a.byteOffset < b.byteOffset then -1
    else if a.byteOffset > b.byteOffset then 1
    else 0
  }

  predicate LessThan(a: Offset, b: Offset) {
    Compare(a, b) < 0
  }

  predicate LessThanOrEqual(a: Offset, b: Offset) {
    Compare(a, b) <= 0
  }
}
