/** Go's fixed-width integer arithmetic, where the model needs it. */
module GoInt {

  const Two63: int := 0x8000_0000_0000_0000
  const Two64: int := 0x1_0000_0000_0000_0000

  predicate InInt64(x: int) {
    -Two63 <= x < Two63
  }

  /** The int64 that Go's two's-complement arithmetic produces for the
      mathematical value `x`: the unique int64 congruent to `x` mod 2^64. */
  function Int64(x: int): (r: int)
    ensures InInt64(r)
    ensures (x - r) % Two64 == 0
    ensures InInt64(x) ==> r == x
  {
    var m := (x + Two63) % Two64;
    assert x - (m - Two63) == Two64 * ((x + Two63) / Two64);
    m - Two63
  }

  /** Go's conversion of a floating-point value to an integer, which
      discards the fraction (rounds toward zero). */
  function Truncate(x: real): (r: int)
    ensures 0.0 <= x ==> r as real <= x < r as real + 1.0
    ensures x < 0.0 ==> r as real - 1.0 < x <= r as real
  {
    if x >= 0.0 then x.Floor else -((-x).Floor)
  }

  /** Converting an integer to a float and back gives the integer. */
  lemma TruncateOfInt(n: int)
    ensures Truncate(n as real) == n
  {
  }
}
