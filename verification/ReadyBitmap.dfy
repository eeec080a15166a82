/** The ready bitmap: bit p is set when the ready list of priority p is not empty. */
module ReadyBitmap {
  const PRIORITY_COUNT: nat := 8
  type Priority = p: nat | p < PRIORITY_COUNT

  /** The highest priority at or below p in the set, or -1. */
  function HighestIn(bits: set<Priority>, p: int): (h: int)
    requires -1 <= p < PRIORITY_COUNT
    ensures -1 <= h <= p
    ensures h >= 0 ==> h in bits
    ensures forall q: Priority :: h < q <= p ==> q !in bits
    decreases p
  {
    if p < 0 then -1 else if p in bits then p else HighestIn(bits, p - 1)
  }
}
