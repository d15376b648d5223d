/**
 * The HasBitCount2 lookup table: entry `i` tells whether at least two of the
 * three low bits of `i` are set ("two out of three").
 */
module BitCount {

  /** HasBitCount2[8], indexed by a 3-bit value. */
  const HasBitCount2: seq<bool> := [false, false, false, true, false, true, true, true]

  /** Bit `k` (0, 1 or 2) of a 3-bit index. */
  function Bit3(i: nat, k: nat): (b: nat)
    requires i < 8 && k < 3
    ensures b <= 1
  {
    if k == 0 then i % 2 else if k == 1 then (i / 2) % 2 else (i / 4) % 2
  }

  /** The number of set bits of a 3-bit index. */
  function PopCount3(i: nat): (c: nat)
    requires i < 8
    ensures c <= 3
    ensures c == 0 <==> i == 0
    ensures c == 3 <==> i == 7
  {
    Bit3(i, 0) + Bit3(i, 1) + Bit3(i, 2)
  }

  /** Every bit set in `i` is set in `j`. */
  predicate BitsSubset(i: nat, j: nat)
    requires i < 8 && j < 8
  {
    forall k :: 0 <= k < 3 ==> Bit3(i, k) <= Bit3(j, k)
  }

  /** The table is popcount(i) >= 2, entry by entry. */
  lemma HasBitCount2IsPopCount(i: nat)
    requires i < 8
    ensures |HasBitCount2| == 8
    ensures HasBitCount2[i] <==> PopCount3(i) >= 2
  {
  }

  /** The same statement for all eight entries at once. */
  lemma HasBitCount2Table()
    ensures |HasBitCount2| == 8
    ensures forall i: nat :: i < 8 ==> (HasBitCount2[i] <==> PopCount3(i) >= 2)
  {
  }

  /** A set bit never contributes to the count negatively. */
  lemma PopCountMonotone(i: nat, j: nat)
    requires i < 8 && j < 8
    requires BitsSubset(i, j)
    ensures PopCount3(i) <= PopCount3(j)
  {
  }

  /** Setting extra bits never turns a true entry into false. */
  lemma HasBitCount2Monotone(i: nat, j: nat)
    requires i < 8 && j < 8
    requires BitsSubset(i, j)
    requires HasBitCount2[i]
    ensures HasBitCount2[j]
  {
    HasBitCount2IsPopCount(i);
    HasBitCount2IsPopCount(j);
    PopCountMonotone(i, j);
  }
}
