/**
 * The part of the 256-bit unsigned integer package that the FSM manager uses.
 * The manager handles `*uint256.Int` POINTERS, so a number is an object here:
 * two objects with the same value are still two objects, which matters for the
 * identity comparisons in `isFirst` / `isLast`.
 */
module Uint256 {

  const TWO_64: int := 0x1_0000_0000_0000_0000
  const TWO_256: int := 0x1_0000_0000_0000_0000_0000_0000_0000_0000_0000_0000_0000_0000_0000_0000_0000_0000

  /** Go's `uint64`. */
  type U64 = x: int | 0 <= x < TWO_64

  /** The range of a `uint256.Int`. */
  type U256 = x: int | 0 <= x < TWO_256

  /** A heap-allocated 256-bit unsigned integer (`*uint256.Int`). */
  class Int {
    const value: U256

    /** `uint256.NewInt(v)`: a fresh integer holding a 64-bit value. */
    constructor NewInt(v: U64)
      ensures value == v
    {
      value := v;
    }

    /** A fresh integer holding any 256-bit value (however the caller built it). */
    constructor FromValue(v: U256)
      ensures value == v
    {
      value := v;
    }

    /** `Clone`: a new object with the same value. */
    method Clone() returns (c: Int)
      ensures fresh(c) && c.value == value
    {
      c := new Int.FromValue(value);
    }

    /** `Uint64`: the low 64 bits. Values of 2^64 and above are truncated, not rejected. */
    function Uint64(): (r: U64)
      ensures (value - r) % TWO_64 == 0
      ensures value < TWO_64 ==> r == value
      ensures r <= value
    {
      value % TWO_64
    }
  }
}
