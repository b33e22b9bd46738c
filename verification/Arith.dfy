/** Integer arithmetic shared by the models: rounding division and mixed-radix positions. */
module Arith {

  /** DIVUP of src/include/align.h. */
  function DivUp(x: nat, y: nat): (q: nat)
    requires y > 0
    ensures x <= q * y < x + y
  {
    var q := (x + y - 1) / y;
    DivModFacts(x + y - 1, y);
    q
  }

  function Min(a: int, b: int): int { if a < b then a else b }

  function Max(a: int, b: int): int { if a < b then b else a }

  /** Division characterised without division. */
  lemma DivModFacts(x: int, d: int)
    requires d > 0
    ensures x == (x / d) * d + x % d
    ensures 0 <= x % d < d
  {
  }

  lemma MulMono(a: int, b: int, c: int)
    requires a <= b && 0 <= c
    ensures a * c <= b * c
  {
  }

  lemma MulNonNeg(a: nat, b: nat)
    ensures 0 <= a * b
  {
  }

  lemma DivNonNeg(a: nat, d: nat)
    requires d > 0
    ensures 0 <= a / d
  {
  }

  /** Quotient and remainder are unique. */
  lemma DivUnique(x: int, d: int, q: int, m: int)
    requires d > 0 && 0 <= m < d && x == q * d + m
    ensures x / d == q && x % d == m
  {
    DivModFacts(x, d);
    if x / d < q {
      MulMono(x / d + 1, q, d);
      assert false;
    } else if x / d > q {
      MulMono(q + 1, x / d, d);
      assert false;
    }
  }

  lemma DivMono(a: int, b: int, d: int)
    requires d > 0 && a <= b
    ensures a / d <= b / d
  {
    DivModFacts(a, d);
    DivModFacts(b, d);
    if b / d < a / d {
      MulMono(b / d + 1, a / d, d);
      assert false;
    }
  }

  /** Adding a multiple of the divisor leaves the remainder alone. */
  lemma ModShift(x: int, d: int, k: int)
    requires d > 0
    ensures (x + k * d) % d == x % d
    ensures (x + k * d) / d == x / d + k
  {
    DivModFacts(x, d);
    DivUnique(x + k * d, d, x / d + k, x % d);
  }

  lemma MultipleTimes(k: nat, x: nat, a: nat)
    requires a >= 1 && x % a == 0
    ensures k * x % a == 0
  {
    DivModFacts(x, a);
    assert k * x == (k * (x / a)) * a;
    DivUnique(k * x, a, k * (x / a), 0);
  }

  lemma MultiplePlus(x: nat, y: nat, a: nat)
    requires a >= 1 && x % a == 0 && y % a == 0
    ensures (x + y) % a == 0
  {
    DivModFacts(x, a);
    DivModFacts(y, a);
    assert (x / a + y / a) * a == x + y;
    DivUnique(x + y, a, x / a + y / a, 0);
  }
}
