/**
 The 8-bit indices of the two rings, and the slots that unbounded counts fall into.
 */
module Indexes {

  /** Number of slots in `block_`: every index of the unsigned 8-bit index type. */
  const SLOTS: nat := 256

  /** `size_limit`, the largest unsigned 8-bit value. */
  const SIZE_LIMIT: nat := 255

  type byte = x: int | 0 <= x < SLOTS

  /** Truncation of an unsigned or negative `int` to `uint8_t`. */
  function U8(x: int): (r: byte) {
    x % SLOTS
  }

  function Slot(k: nat): (i: nat)
    ensures i < SLOTS
  {
    k % SLOTS
  }

  /** Counts less than a lap apart fall into different slots. */
  lemma SlotsDiffer(j: nat, k: nat)
    requires Slot(j) == Slot(k) && j < k + SLOTS && k < j + SLOTS
    ensures j == k
  {
  }

  /** Consecutive counts have consecutive slots, all the way round. */
  lemma NextSlot(k: nat)
    ensures Slot(k + 1) == U8(Slot(k) + 1)
  {
  }
}
