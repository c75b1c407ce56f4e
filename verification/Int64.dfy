/** Signed 64-bit integers: arithmetic wraps around silently. */
module Int64 {
  const TWO_63: int := 0x8000_0000_0000_0000
  const TWO_64: int := 0x1_0000_0000_0000_0000

  type int64 = x: int | -TWO_63 <= x < TWO_63

  predicate InRange(x: int) {
    -TWO_63 <= x < TWO_63
  }

  /** The value a 64-bit register holds after computing `x`. */
  function Wrap(x: int): (r: int64)
    ensures InRange(x) ==> r == x
  {
    (x + TWO_63) % TWO_64 - TWO_63
  }

  /** Two integers wrap to the same value exactly when they differ by a multiple of 2^64. */
  lemma WrapEqualIff(a: int, b: int)
    ensures Wrap(a) == Wrap(b) <==> (a - b) % TWO_64 == 0
  {
    var x, y := a + TWO_63, b + TWO_63;
    assert x == x / TWO_64 * TWO_64 + x % TWO_64;
    assert y == y / TWO_64 * TWO_64 + y % TWO_64;
  }

  /** The multiple of 2^64 that wrapping adds. */
  ghost function Turns(a: int): (k: int)
    ensures Wrap(a) == a + k * TWO_64
  {
    -((a + TWO_63) / TWO_64)
  }

  lemma WrapShift(a: int, k: int)
    ensures Wrap(a + k * TWO_64) == Wrap(a)
  {
    assert ((a + k * TWO_64) - a) % TWO_64 == 0;
    WrapEqualIff(a + k * TWO_64, a);
  }

  /** Intermediate overflow is harmless in sums: only the final sum decides. */
  lemma WrapAdd(a: int, b: int)
    ensures Wrap(Wrap(a) + b) == Wrap(a + b)
    ensures Wrap(Wrap(a) + Wrap(b)) == Wrap(a + b)
  {
    WrapShift(a + b, Turns(a));
    WrapShift(a + b, Turns(a) + Turns(b));
  }

  lemma WrapSub(a: int, b: int)
    ensures Wrap(Wrap(a) - b) == Wrap(a - b)
    ensures Wrap(Wrap(a) - Wrap(b)) == Wrap(a - b)
  {
    WrapShift(a - b, Turns(a));
    WrapShift(a - b, Turns(a) - Turns(b));
  }
}
