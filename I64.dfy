/** Signed 64-bit integers as LLVM's i64 sees them: values live in
    [-2^63, 2^63) and a plain `add` wraps around modulo 2^64. */
module I64 {

  const Min: int := -0x8000_0000_0000_0000
  const Max: int := 0x7fff_ffff_ffff_ffff
  const Modulus: int := 0x1_0000_0000_0000_0000

  predicate InRange(x: int) {
    Min <= x <= Max
  }

  /** Two's-complement truncation of an exact integer to i64. */
  function Wrap(x: int): (r: int)
    ensures InRange(r)
    ensures (x - r) % Modulus == 0
    ensures InRange(x) ==> r == x
  {
    (x - Min) % Modulus + Min
  }

  /** Two integers that agree modulo 2^64 truncate to the same i64. */
  lemma WrapCongruent(x: int, y: int, q: int)
    requires x == y + q * Modulus
    ensures Wrap(x) == Wrap(y)
  {
    var a, b := Wrap(x), Wrap(y);
    var qa := (x - a) / Modulus;
    var qb := (y - b) / Modulus;
    assert x - a == qa * Modulus;
    assert y - b == qb * Modulus;
    // a - b is a multiple of Modulus strictly between -Modulus and Modulus
    assert a - b == (q + qb - qa) * Modulus;
  }

  /** Wrapping the accumulator before adding does not change the wrapped sum:
      the plain, wrapping `add` may be applied step by step. */
  lemma WrapAdd(a: int, b: int)
    ensures Wrap(Wrap(a) + b) == Wrap(a + b)
  {
    var q := (a - Wrap(a)) / Modulus;
    assert a - Wrap(a) == q * Modulus;
    WrapCongruent(a + b, Wrap(a) + b, q);
  }
}
