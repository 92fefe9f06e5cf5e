/** Machine integers of the Rust program and the saturating operations it uses. */
module Numeric {

  /** Largest `u16`. */
  const U16_MAX: int := 0xFFFF
  type U16 = x: int | 0 <= x <= U16_MAX

  /** Largest `usize`, for a 64-bit target. */
  const USIZE_MAX: int := 0xFFFF_FFFF_FFFF_FFFF
  type Usize = x: int | 0 <= x <= USIZE_MAX

  /** `usize::saturating_sub`: the difference, or 0 when it would be negative. */
  function SaturatingSub(x: Usize, y: Usize): (r: Usize)
    ensures r <= x
    ensures r + y == x || (r == 0 && x < y)
  {
    if y <= x then x - y else 0
  }

  /** `usize::saturating_add`: the sum, or `USIZE_MAX` when it would not fit. */
  function SaturatingAdd(x: Usize, y: Usize): (r: Usize)
    ensures x <= r
    ensures r == x + y || (r == USIZE_MAX && USIZE_MAX < x + y)
  {
    if x + y <= USIZE_MAX then x + y else USIZE_MAX
  }

  /** A step up followed by a step down is the identity below the maximum. */
  lemma IncrementThenDecrement(x: Usize)
    requires x < USIZE_MAX
    ensures SaturatingSub(SaturatingAdd(x, 1), 1) == x
  {
  }

  /** A step down followed by a step up is the identity above 0. */
  lemma DecrementThenIncrement(x: Usize)
    requires 0 < x
    ensures SaturatingAdd(SaturatingSub(x, 1), 1) == x
  {
  }
}

/** The `Option` of the Rust standard library, with the one method the program uses. */
module Wrappers {

  datatype Option<T> = None | Some(value: T) {

    /** `Option::unwrap_or` */
    function UnwrapOr(default: T): T
    {
      match this
      case Some(v) => v
      case None => default
    }
  }
}
