/**
 * Java's 32-bit signed `int`, as far as the calculator relies on it: the exact operations of
 * java.lang.Math (which report overflow instead of wrapping) and the plain `x * -1` negation
 * (which silently wraps around at the minimum value).
 */
module Int32 {
  import opened Wrappers

  const MIN: int := -0x8000_0000
  const MAX: int := 0x7fff_ffff
  const MODULUS: int := 0x1_0000_0000

  type int32 = i: int | -0x8000_0000 <= i <= 0x7fff_ffff

  predicate InRange(i: int) {
    MIN <= i <= MAX
  }

  /** The outcome of `Math.addExact`, `Math.subtractExact` or `Math.multiplyExact` whose exact value is `i`:
      the value itself when it fits, and `None` for the ArithmeticException otherwise. */
  function Exact(i: int): (r: Option<int32>)
    ensures r.Some? <==> InRange(i)
    ensures r.Some? ==> r.value == i
  {
    if InRange(i) then Some(i) else None
  }

  /** Two's-complement reduction of an unbounded integer into the 32-bit range. */
  function Wrap(i: int): (r: int32)
    ensures (r - i) % MODULUS == 0
    ensures InRange(i) ==> r == i
  {
    var k := (i - MIN) / MODULUS;
    assert i - MIN == k * MODULUS + (i - MIN) % MODULUS;
    (i - MIN) % MODULUS + MIN
  }

  /** Java's `x * -1` on an `int`: the two's-complement negation, which maps MIN to itself. */
  function Negate(x: int32): (r: int32)
    ensures r == Wrap(-(x as int))
  {
    if x == MIN then MIN else -x
  }

  /** Negation is an involution on the whole 32-bit range, MIN included; it changes the sign of
      every value except 0 and MIN. */
  lemma NegateInvolution(x: int32)
    ensures Negate(Negate(x)) == x
    ensures x != 0 && x != MIN ==> (Negate(x) < 0 <==> x > 0)
    ensures Negate(MIN) == MIN && Negate(0) == 0
  {
  }
}
