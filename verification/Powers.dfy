/** Powers of two, the rounded-up logarithm, and exclusive or on numbers. */
module Powers {
  function Pow2(k: nat): (p: nat)
    ensures p >= 1
  {
    if k == 0 then 1 else 2 * Pow2(k - 1)
  }

  /** The rounded-up base-2 logarithm. */
  function CeilLog2(n: nat): nat { if n <= 1 then 0 else 1 + CeilLog2((n + 1) / 2) }

  lemma {:induction false} CeilLog2Bounds(n: nat)
    ensures n <= Pow2(CeilLog2(n)) && (n >= 2 ==> CeilLog2(n) >= 1 && Pow2(CeilLog2(n) - 1) < n)
  {
    if n >= 2 { CeilLog2Bounds((n + 1) / 2); }
  }

  lemma {:induction false} Pow2Mono(a: nat, b: nat)
    requires a <= b
    ensures Pow2(a) <= Pow2(b) && (a < b ==> 2 * Pow2(a) <= Pow2(b))
  {
    if a < b { Pow2Mono(a, b - 1); }
  }

  lemma CeilLog2Unique(n: nat, k: nat)
    requires n <= Pow2(k) && (k >= 1 ==> Pow2(k - 1) < n) && n >= 1
    ensures k == CeilLog2(n)
  {
    CeilLog2Bounds(n);
    var c := CeilLog2(n);
    if k < c { Pow2Mono(k, c - 1); }
    if c < k { Pow2Mono(c, k - 1); }
  }

  function BitXor(a: nat, b: nat): nat
    decreases a + b
  {
    if a == 0 then b else if b == 0 then a else 2 * BitXor(a / 2, b / 2) + (a + b) % 2
  }
}
