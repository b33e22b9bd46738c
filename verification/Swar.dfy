/**
 Element-wise reductions on packs (src/device/reduce_kernel.h): a pack is reduced by halves down to
 single elements, and four bytes at a time are added, multiplied or compared inside one 32-bit word.
 The comparison is unsigned after an exclusive or; hostToDevRedOp (src/enqueue.cc) chooses the mask.
 */
module Swar {
  import opened Arith
  import opened Powers

  const WORD: nat := 0x1_0000_0000

  type Byte = x: nat | x < 256

  // ---------------------------------------------------------------- words of four bytes

  function Word(b0: Byte, b1: Byte, b2: Byte, b3: Byte): (w: nat)
    ensures w < WORD
  {
    b0 + 0x100 * b1 + 0x1_0000 * b2 + 0x100_0000 * b3
  }

  function Lane0(w: nat): Byte { w % 0x100 }
  function Lane1(w: nat): Byte { w / 0x100 % 0x100 }
  function Lane2(w: nat): Byte { w / 0x1_0000 % 0x100 }
  function Lane3(w: nat): Byte { w / 0x100_0000 % 0x100 }

  /** A byte of a number written out as low part, byte and high part. */
  lemma Digit(w: nat, unit: nat, low: nat, b: Byte, high: nat)
    requires unit >= 1 && low < unit && w == low + unit * (b + 256 * high)
    ensures w / unit % 256 == b
  {
    DivUnique(w, unit, b + 256 * high, low);
    DivUnique(b + 256 * high, 256, high, b);
  }

  lemma LanesOf(b0: Byte, b1: Byte, b2: Byte, b3: Byte)
    ensures var w := Word(b0, b1, b2, b3); Lane0(w) == b0 && Lane1(w) == b1 && Lane2(w) == b2 && Lane3(w) == b3
  {
    var w := Word(b0, b1, b2, b3);
    Digit(w, 1, 0, b0, b1 + 0x100 * b2 + 0x1_0000 * b3);
    Digit(w, 0x100, b0, b1, b2 + 0x100 * b3);
    Digit(w, 0x1_0000, b0 + 0x100 * b1, b2, b3);
    Digit(w, 0x100_0000, b0 + 0x100 * b1 + 0x1_0000 * b2, b3, 0);
  }

  /** w & 0x00ff00ff and w & 0xff00ff00. */
  function EvenBytes(w: nat): nat { Lane0(w) + 0x1_0000 * Lane2(w) }

  function OddBytes(w: nat): nat { 0x100 * Lane1(w) + 0x100_0000 * Lane3(w) }

  /** The four-lane sum: two additions with a spare byte between the lanes. */
  function Sum4(a: nat, b: nat): nat {
    var x := (EvenBytes(a) + EvenBytes(b)) % WORD;
    var y := (OddBytes(a) + OddBytes(b)) % WORD;
    Word(Lane0(x), Lane1(y), Lane2(x), Lane3(y))
  }

  lemma Sum4IsElementwise(a: nat, b: nat)
    ensures Sum4(a, b) == Word((Lane0(a) + Lane0(b)) % 256, (Lane1(a) + Lane1(b)) % 256, (Lane2(a) + Lane2(b)) % 256, (Lane3(a) + Lane3(b)) % 256)
  {
    EvenSums(Lane0(a) + Lane0(b), Lane2(a) + Lane2(b));
    OddSums(Lane1(a) + Lane1(b), Lane3(a) + Lane3(b));
  }

  lemma EvenSums(p: nat, q: nat)
    requires p <= 510 && q <= 510
    ensures var x := (p + 0x1_0000 * q) % WORD; Lane0(x) == p % 256 && Lane2(x) == q % 256
  {
    var x := p + 0x1_0000 * q;
    DivModFacts(p, 256);
    DivModFacts(q, 256);
    DivUnique(x, WORD, 0, x);
    Digit(x, 1, 0, p % 256, p / 256 + 0x100 * q);
    Digit(x, 0x1_0000, p, q % 256, q / 256);
  }

  lemma OddSums(p: nat, q: nat)
    requires p <= 510 && q <= 510
    ensures var y := (0x100 * p + 0x100_0000 * q) % WORD; Lane1(y) == p % 256 && Lane3(y) == q % 256
  {
    DivModFacts(p, 256);
    DivModFacts(q, 256);
    var y := 0x100 * p + 0x100_0000 * (q % 256);
    DivUnique(0x100 * p + 0x100_0000 * q, WORD, q / 256, y);
    Digit(y, 0x100, 0, p % 256, p / 256 + 0x100 * (q % 256));
    Digit(y, 0x100_0000, 0x100 * p, q % 256, 0);
  }

  /** High half of a 32-bit multiplication. */
  function MulHigh(x: nat, y: nat): nat {
    MulNonNeg(x, y);
    DivNonNeg(x * y, WORD);
    x * y / WORD
  }

  /** The four-lane product: low and high halves of 32-bit multiplications of masked words. */
  function Prod4(a: nat, b: nat): nat {
    MulNonNeg(a, b);
    var ab0 := ((a * b) % 0x100 + (0x100 * Lane1(a)) * (0x100 * Lane1(b))) % WORD;
    var ab1 := MulHigh(0x1_0000 * Lane2(a), 0x1_0000 * Lane2(b)) + MulHigh(0x100_0000 * Lane3(a), 0x100_0000 * Lane3(b));
    Word(Lane0(ab0), Lane2(ab0), Lane0(ab1), Lane2(ab1))
  }

  /** Product of two bytes. */
  function Times(x: Byte, y: Byte): (p: nat)
    ensures p <= 65025
  {
    MulMono(x, 255, y);
    MulMono(y, 255, 255);
    x * y
  }

  lemma Prod4IsElementwise(a: nat, b: nat)
    ensures Prod4(a, b) == Word(Times(Lane0(a), Lane0(b)) % 256, Times(Lane1(a), Lane1(b)) % 256,
                                Times(Lane2(a), Lane2(b)) % 256, Times(Lane3(a), Lane3(b)) % 256)
  {
    var p1, p2, p3 := Times(Lane1(a), Lane1(b)), Times(Lane2(a), Lane2(b)), Times(Lane3(a), Lane3(b));
    LowByteOfProduct(a, b);
    Scaled(Lane1(a), Lane1(b), 0x100);
    Scaled(Lane2(a), Lane2(b), 0x1_0000);
    Scaled(Lane3(a), Lane3(b), 0x100_0000);
    hide Lane0, Lane1, Lane2, Lane3, Word;
    DivUnique(0x1_0000_0000 * p2, WORD, p2, 0);
    DivUnique(0x1_0000_0000_0000 * p3, WORD, 0x1_0000 * p3, 0);
    LowPair(Times(Lane0(a), Lane0(b)) % 256, p1);
    HighPair(p2, p3);
  }

  lemma Scaled(x: Byte, y: Byte, k: nat)
    ensures (k * x) * (k * y) == (k * k) * Times(x, y)
  {
  }

  lemma LowByteOfProduct(a: nat, b: nat)
    ensures (a * b) % 0x100 == Times(Lane0(a), Lane0(b)) % 256
  {
    DivModFacts(a, 256);
    DivModFacts(b, 256);
    var x, y, p, q := a / 256, b / 256, a % 256, b % 256;
    assert a * b == (x * 256 + p) * (y * 256 + q) == p * q + (x * (y * 256 + q) + p * y) * 256;
    ModShift(p * q, 256, x * (y * 256 + q) + p * y);
  }

  lemma LowPair(low: nat, p1: nat)
    requires low < 256 && p1 <= 65025
    ensures var ab0 := (low + 0x1_0000 * p1) % WORD; Lane0(ab0) == low && Lane2(ab0) == p1 % 256
  {
    var ab0 := low + 0x1_0000 * p1;
    DivModFacts(p1, 256);
    DivUnique(ab0, WORD, 0, ab0);
    Digit(ab0, 1, 0, low, 0x100 * p1);
    Digit(ab0, 0x1_0000, low, p1 % 256, p1 / 256);
  }

  lemma HighPair(p2: nat, p3: nat)
    requires p2 <= 65025 && p3 <= 65025
    ensures var ab1 := p2 + 0x1_0000 * p3; Lane0(ab1) == p2 % 256 && Lane2(ab1) == p3 % 256
  {
    var ab1 := p2 + 0x1_0000 * p3;
    DivModFacts(p2, 256);
    DivModFacts(p3, 256);
    Digit(ab1, 1, 0, p2 % 256, p2 / 256 + 0x100 * p3);
    Digit(ab1, 0x1_0000, p2, p3 % 256, p3 / 256);
  }

  // ---------------------------------------------------------------- comparison

  /** Exclusive or of two bytes. */
  function Xor8(a: Byte, m: Byte): Byte {
    XorBound(a, m, 8);
    BitXor(a, m)
  }

  lemma {:induction false} XorBound(a: nat, m: nat, n: nat)
    requires a < Pow2(n) && m < Pow2(n)
    ensures BitXor(a, m) < Pow2(n)
  {
    if n > 0 { XorBound(a / 2, m / 2, n - 1); }
  }

  /** Least bit of a byte, spread over the whole byte by the multiplication with 0xff. */
  function Spread(d: nat): Byte { (d % 2) * 0xff }

  /** 9-bit subtraction of two lanes in each half of a word: bit 8 of each half is set if the first is smaller. */
  function Delta(x: Byte, y: Byte, x': Byte, y': Byte): nat {
    ((x + 0x1_0000 * x') + ((255 - y) + 0x1_0000 * (255 - y')) + 0x101_0101) % WORD
  }

  lemma DeltaSign(x: Byte, y: Byte, x': Byte, y': Byte)
    ensures Spread(Lane1(Delta(x, y, x', y'))) == if x < y then 0xff else 0
    ensures Spread(Lane3(Delta(x, y, x', y'))) == if x' < y' then 0xff else 0
  {
    var t, t' := x + 255 - y + 1 + 256, x' + 255 - y' + 1 + 256;
    DivModFacts(t, 256);
    DivModFacts(t', 256);
    var d := t + 0x1_0000 * t';
    DivUnique(d, WORD, 0, d);
    Digit(d, 0x100, t % 256, t / 256, 0x100 * t' / 0x100);
    Digit(d, 0x100_0000, t + 0x1_0000 * (t' % 256), t' / 256, 0);
  }

  /** One byte of (a & s) | (b & ~s), for s all ones or all zeros. */
  function Select(s: Byte, a: Byte, b: Byte): Byte { if s == 0xff then a else b }

  /** The four-lane comparison. */
  function MinMax4(mask: Byte, a: nat, b: nat): nat {
    var x0, x1, x2, x3 := Xor8(Lane0(a), mask), Xor8(Lane1(a), mask), Xor8(Lane2(a), mask), Xor8(Lane3(a), mask);
    var y0, y1, y2, y3 := Xor8(Lane0(b), mask), Xor8(Lane1(b), mask), Xor8(Lane2(b), mask), Xor8(Lane3(b), mask);
    var d0, d1 := Delta(x0, y0, x2, y2), Delta(x1, y1, x3, y3);
    Word(Select(Spread(Lane1(d0)), Lane0(a), Lane0(b)), Select(Spread(Lane1(d1)), Lane1(a), Lane1(b)),
         Select(Spread(Lane3(d0)), Lane2(a), Lane2(b)), Select(Spread(Lane3(d1)), Lane3(a), Lane3(b)))
  }

  /** The comparison of one element. */
  function MinMax(mask: nat, a: nat, b: nat): nat { if BitXor(a, mask) < BitXor(b, mask) then a else b }

  lemma MinMax4IsElementwise(mask: Byte, a: nat, b: nat)
    ensures MinMax4(mask, a, b) == Word(MinMax(mask, Lane0(a), Lane0(b)), MinMax(mask, Lane1(a), Lane1(b)),
                                        MinMax(mask, Lane2(a), Lane2(b)), MinMax(mask, Lane3(a), Lane3(b)))
  {
    hide Delta, Spread, Word, BitXor;
    DeltaSign(Xor8(Lane0(a), mask), Xor8(Lane0(b), mask), Xor8(Lane2(a), mask), Xor8(Lane2(b), mask));
    DeltaSign(Xor8(Lane1(a), mask), Xor8(Lane1(b), mask), Xor8(Lane3(a), mask), Xor8(Lane3(b), mask));
    hide Lane0, Lane1, Lane2, Lane3;
  }

  // ---------------------------------------------------------------- packs of any power of two

  datatype Op = Sum | Prod | MinMaxOf(mask: Byte)

  function Elem(op: Op, x: Byte, y: Byte): Byte {
    match op
    case Sum => (x + y) % 256
    case Prod => Times(x, y) % 256
    case MinMaxOf(mask) => MinMax(mask, x, y)
  }

  function Four(op: Op, a: nat, b: nat): nat {
    match op
    case Sum => Sum4(a, b)
    case Prod => Prod4(a, b)
    case MinMaxOf(mask) => MinMax4(mask, a, b)
  }

  function ToWord(s: seq<Byte>): nat
    requires |s| == 4
  {
    Word(s[0], s[1], s[2], s[3])
  }

  /** Apply_Reduce for uint8_t: by halves, with the four-lane form for four elements. */
  function ReducePack(op: Op, a: seq<Byte>, b: seq<Byte>): seq<Byte>
    requires |a| == |b|
    decreases |a|
  {
    if |a| == 0 then []
    else if |a| == 1 then [Elem(op, a[0], b[0])]
    else if |a| == 4 then
      var w := Four(op, ToWord(a), ToWord(b));
      [Lane0(w), Lane1(w), Lane2(w), Lane3(w)]
    else
      var h := |a| / 2;
      ReducePack(op, a[..h], b[..h]) + ReducePack(op, a[h..], b[h..])
  }

  /** Apply_Reduce for any other element type: by halves down to single elements. */
  function ReduceHalves<T>(fn: (T, T) -> T, a: seq<T>, b: seq<T>): seq<T>
    requires |a| == |b|
    decreases |a|
  {
    if |a| == 0 then []
    else if |a| == 1 then [fn(a[0], b[0])]
    else
      var h := |a| / 2;
      ReduceHalves(fn, a[..h], b[..h]) + ReduceHalves(fn, a[h..], b[h..])
  }

  lemma {:induction false} HalvesAreElementwise<T>(fn: (T, T) -> T, a: seq<T>, b: seq<T>)
    requires |a| == |b|
    ensures |ReduceHalves(fn, a, b)| == |a| && forall i :: 0 <= i < |a| ==> ReduceHalves(fn, a, b)[i] == fn(a[i], b[i])
    decreases |a|
  {
    if |a| > 1 {
      var h := |a| / 2;
      HalvesAreElementwise(fn, a[..h], b[..h]);
      HalvesAreElementwise(fn, a[h..], b[h..]);
    }
  }

  lemma FourIsElementwise(op: Op, a: seq<Byte>, b: seq<Byte>)
    requires |a| == |b| == 4
    ensures var w := Four(op, ToWord(a), ToWord(b));
      Lane0(w) == Elem(op, a[0], b[0]) && Lane1(w) == Elem(op, a[1], b[1]) && Lane2(w) == Elem(op, a[2], b[2]) && Lane3(w) == Elem(op, a[3], b[3])
  {
    hide Lane0, Lane1, Lane2, Lane3, Word, Sum4, Prod4, MinMax4;
    LanesOf(a[0], a[1], a[2], a[3]);
    LanesOf(b[0], b[1], b[2], b[3]);
    LanesOf(Elem(op, a[0], b[0]), Elem(op, a[1], b[1]), Elem(op, a[2], b[2]), Elem(op, a[3], b[3]));
    match op
    case Sum => Sum4IsElementwise(ToWord(a), ToWord(b));
    case Prod => Prod4IsElementwise(ToWord(a), ToWord(b));
    case MinMaxOf(mask) => MinMax4IsElementwise(mask, ToWord(a), ToWord(b));
  }

  /** Reducing a pack of bytes of any size is reducing it byte by byte. */
  lemma {:induction false} PackIsElementwise(op: Op, a: seq<Byte>, b: seq<Byte>)
    requires |a| == |b|
    ensures |ReducePack(op, a, b)| == |a| && forall i :: 0 <= i < |a| ==> ReducePack(op, a, b)[i] == Elem(op, a[i], b[i])
    decreases |a|
  {
    hide Elem, Four, Lane0, Lane1, Lane2, Lane3;
    if |a| == 4 {
      FourIsElementwise(op, a, b);
    } else if |a| > 1 {
      var h := |a| / 2;
      PackIsElementwise(op, a[..h], b[..h]);
      PackIsElementwise(op, a[h..], b[h..]);
    }
  }

  // ---------------------------------------------------------------- the mask for minimum and maximum

  /** Exclusive or of two numbers given by their rest and last bit. */
  lemma XorStep(h: nat, e: nat, k: nat, f: nat)
    requires e < 2 && f < 2
    ensures BitXor(2 * h + e, 2 * k + f) == 2 * BitXor(h, k) + if e == f then 0 else 1
  {
    assert (2 * h + e) / 2 == h && (2 * k + f) / 2 == k;
  }

  lemma XorZero(a: nat)
    ensures BitXor(a, 0) == a
  {
  }

  lemma XorBit(a: nat)
    requires a < 2
    ensures BitXor(a, 1) == 1 - a
  {
  }

  lemma {:induction false} XorOnes(a: nat, n: nat)
    requires a < Pow2(n)
    ensures BitXor(a, Pow2(n) - 1) == Pow2(n) - 1 - a
  {
    hide BitXor;
    if n == 0 {
      XorZero(a);
    } else {
      var p, h, e := Pow2(n - 1), a / 2, a % 2;
      assert Pow2(n) == 2 * p && a == 2 * h + e;
      hide Pow2;
      XorOnes(h, n - 1);
      XorStep(h, e, p - 1, 1);
    }
  }

  lemma {:induction false} XorTop(a: nat, n: nat)
    requires a < Pow2(n + 1)
    ensures BitXor(a, Pow2(n)) == if a < Pow2(n) then a + Pow2(n) else a - Pow2(n)
  {
    hide BitXor;
    if n == 0 {
      XorBit(a);
    } else {
      var p, h, e := Pow2(n - 1), a / 2, a % 2;
      assert Pow2(n) == 2 * p && Pow2(n + 1) == 4 * p && a == 2 * h + e;
      hide Pow2;
      XorTop(h, n - 1);
      XorStep(h, e, p, 0);
    }
  }

  lemma {:induction false} XorBelowTop(a: nat, n: nat)
    requires a < Pow2(n + 1)
    ensures BitXor(a, Pow2(n) - 1) == if a < Pow2(n) then Pow2(n) - 1 - a else 3 * Pow2(n) - 1 - a
  {
    hide BitXor;
    if n == 0 {
      XorZero(a);
    } else {
      var p, h, e := Pow2(n - 1), a / 2, a % 2;
      assert Pow2(n) == 2 * p && Pow2(n + 1) == 4 * p && a == 2 * h + e;
      hide Pow2;
      XorBelowTop(h, n - 1);
      XorStep(h, e, p - 1, 1);
    }
  }

  /** The mask of hostToDevRedOp for integers of `bits` bits. */
  function XorMask(bits: nat, signed: bool, max: bool): nat
    requires bits >= 1
  {
    var allBits := Pow2(bits) - 1;
    var signBit := BitXor(allBits, allBits / 2);
    BitXor(if signed then signBit else 0, if max then allBits else 0)
  }

  lemma MaskIs(bits: nat, signed: bool, max: bool)
    requires bits >= 1
    ensures XorMask(bits, signed, max) ==
      if signed then (if max then Pow2(bits - 1) - 1 else Pow2(bits - 1)) else if max then Pow2(bits) - 1 else 0
  {
    var h := Pow2(bits - 1);
    assert Pow2(bits) == 2 * h;
    XorBelowTop(2 * h - 1, bits - 1);
    XorOnes(h, bits);
  }

  /** The number a bit pattern stands for. */
  function Value(bits: nat, signed: bool, a: nat): int
    requires bits >= 1
  {
    if signed && a >= Pow2(bits - 1) then a - Pow2(bits) else a
  }

  /** With the host's mask the unsigned comparison picks exactly the minimum or the maximum. */
  lemma MaskPicks(bits: nat, signed: bool, max: bool, a: nat, b: nat)
    requires bits >= 1 && a < Pow2(bits) && b < Pow2(bits)
    ensures var r := MinMax(XorMask(bits, signed, max), a, b);
      && (r == a || r == b)
      && Value(bits, signed, r) == if max then Max(Value(bits, signed, a), Value(bits, signed, b)) else Min(Value(bits, signed, a), Value(bits, signed, b))
  {
    assert Pow2(bits) == 2 * Pow2(bits - 1);
    hide BitXor, XorMask, Pow2;
    MaskIs(bits, signed, max);
    if !signed {
      XorZero(a);
      XorZero(b);
      XorOnes(a, bits);
      XorOnes(b, bits);
    } else if max {
      XorBelowTop(a, bits - 1);
      XorBelowTop(b, bits - 1);
    } else {
      XorTop(a, bits - 1);
      XorTop(b, bits - 1);
    }
  }
}
