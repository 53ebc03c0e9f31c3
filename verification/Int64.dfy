/** 64-bit integer arithmetic: results wrap around and division truncates toward zero. */
module Int64s {
  const MIN: int := -0x8000_0000_0000_0000
  const MAX: int := 0x7fff_ffff_ffff_ffff

  type int64 = x: int | MIN <= x <= MAX

  type uint64 = x: int | 0 <= x < 0x1_0000_0000_0000_0000

  /** The 64-bit value a result that may overflow wraps around to. */
  function Wrap(x: int): (w: int64)
    ensures MIN <= x <= MAX ==> w == x
  {
    (x - MIN) % 0x1_0000_0000_0000_0000 + MIN
  }

  function Abs(x: int): int {
    if x < 0 then -x else x
  }

  function Quotient(x: int64, y: int64): int64
    requires y != 0
  {
    Wrap(if (x < 0) == (y < 0) then Abs(x) / Abs(y) else -(Abs(x) / Abs(y)))
  }

  // ---- exact multiplication and division ----

  lemma MulMonotone(a: int, b: int, k: int)
    requires k >= 0
    ensures a <= b ==> a * k <= b * k
    ensures a < b && k > 0 ==> a * k < b * k
    ensures a >= 0 && b <= k ==> a * b <= a * k
  {
  }

  lemma QuotientBounds(x: int, y: int)
    requires x >= 0 && y > 0
    ensures 0 <= x / y <= x
  {
    if x / y > x {
      MulMonotone(1, y, x / y);
    }
  }

  lemma QuotientTimes(x: int, y: int)
    requires x >= 0 && y > 0
    ensures x / y * y <= x < (x / y + 1) * y
  {
    assert x == x / y * y + x % y;
    assert (x / y + 1) * y == x / y * y + y;
  }
}
