/**
 * The star row of a review card (src/components/ReviewCard.tsx): always five
 * star slots, slot `i` (counting from 0) filled when `i < rating`.
 */
module ReviewCard {
  import opened Seqs

  const StarSlots: nat := 5

  /** `renderStars(rating)`: `true` for a filled slot. */
  function StarRow(rating: int): (row: seq<bool>)
    ensures |row| == StarSlots
  {
    seq(StarSlots, i => i < rating)
  }

  /** The rating brought into [0, 5]. */
  function Clamp(rating: int): (k: nat)
    ensures k <= StarSlots
  {
    if rating < 0 then 0 else if rating > StarSlots then StarSlots else rating
  }

  /** `n` copies of `b`. */
  function Run(b: bool, n: nat): (s: seq<bool>)
    ensures |s| == n && forall i :: 0 <= i < n ==> s[i] == b
  {
    seq(n, _ => b)
  }

  /** The number of filled slots in a row. */
  function Filled(row: seq<bool>): nat
  {
    |Filter(row, b => b)|
  }

  /** The filled slots come first: the row is a run of filled slots, then a run of empty ones. */
  lemma StarRowShape(rating: int)
    ensures StarRow(rating) == Run(true, Clamp(rating)) + Run(false, StarSlots - Clamp(rating))
  {
  }

  /**
   * As many slots are filled as the rating says, clamped to [0, 5]: a rating
   * of 0 or less fills none and a rating of 5 or more fills all five.
   */
  lemma FilledCount(rating: int)
    ensures Filled(StarRow(rating)) == Clamp(rating)
    ensures rating <= 0 ==> Filled(StarRow(rating)) == 0
    ensures rating >= StarSlots ==> Filled(StarRow(rating)) == StarSlots
  {
    var k := Clamp(rating);
    var on, off := Run(true, k), Run(false, StarSlots - k);
    StarRowShape(rating);
    FilterAppend(on, off, b => b);
    FilterKeepsAll(on, b => b);
    FilterDropsAll(off, b => b);
  }
}
