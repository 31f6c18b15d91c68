/**
 * Exact decimal amounts. Python's Decimal arithmetic on the shop's amounts is exact,
 * so amounts are reals; `quantize` with the default context rounds half to even.
 */
module Money {

  /** `x.quantize(Decimal("1"))`: the nearest integer, ties going to the even one. */
  function RoundHalfEven(x: real): (n: int)
    ensures -0.5 <= x - n as real <= 0.5
    ensures (x - n as real == 0.5 || n as real - x == 0.5) ==> n % 2 == 0
  {
    var f := x.Floor;
    if x - f as real < 0.5 then f
    else if x - f as real > 0.5 then f + 1
    else if f % 2 == 0 then f
    else f + 1
  }

  lemma RoundIntegral(k: int)
    ensures RoundHalfEven(k as real) == k
  {
    assert (k as real).Floor == k;
  }

  /** A whole number of cents. */
  predicate IsCents(x: real) {
    (x * 100.0).Floor as real == x * 100.0
  }

  /** `x.quantize(Decimal("0.01"))`. */
  function Cents(x: real): (r: real)
    ensures IsCents(r)
    ensures -0.005 <= x - r <= 0.005
  {
    var n := RoundHalfEven(x * 100.0);
    assert (n as real / 100.0) * 100.0 == n as real;
    assert (n as real).Floor == n;
    n as real / 100.0
  }

  /** Quantizing an amount that already is whole cents changes nothing. */
  lemma CentsOfCents(x: real)
    requires IsCents(x)
    ensures Cents(x) == x
  {
    var k := (x * 100.0).Floor;
    RoundIntegral(k);
    assert x * 100.0 == k as real;
  }

  /** Sums and differences of whole cents are whole cents. */
  lemma CentsClosed(a: real, b: real)
    requires IsCents(a) && IsCents(b)
    ensures IsCents(a + b) && IsCents(a - b)
  {
    var ka, kb := (a * 100.0).Floor, (b * 100.0).Floor;
    assert (a + b) * 100.0 == (ka + kb) as real;
    assert (a - b) * 100.0 == (ka - kb) as real;
    assert ((ka + kb) as real).Floor == ka + kb;
    assert ((ka - kb) as real).Floor == ka - kb;
  }
}
