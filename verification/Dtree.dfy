/** The double binary tree (src/graph/trees.cc): ncclGetBtree and ncclGetDtree, and the trees they describe. */
module Dtree {
  import opened Arith
  import opened Powers

  // ---------------------------------------------------------------- bits of a number

  function BitAnd(a: nat, b: nat): nat {
    if a == 0 || b == 0 then 0 else 2 * BitAnd(a / 2, b / 2) + (a % 2) * (b % 2)
  }

  function BitOr(a: nat, b: nat): nat
    decreases a + b
  {
    if a == 0 then b else if b == 0 then a else 2 * BitOr(a / 2, b / 2) + (if a % 2 == 1 || b % 2 == 1 then 1 else 0)
  }

  /** Position of the lowest set bit, and what is above it. */
  function Low(r: nat): nat
    requires r > 0
  {
    if r % 2 == 1 then 0 else 1 + Low(r / 2)
  }

  function Odd(r: nat): (o: nat)
    requires r > 0
    ensures o % 2 == 1
  {
    if r % 2 == 1 then r else Odd(r / 2)
  }

  /** a shifted left by k bits. */
  function Shl(a: nat, k: nat): nat { if k == 0 then a else 2 * Shl(a, k - 1) }

  lemma {:induction false} ShlAdds(a: nat, b: nat, k: nat)
    ensures Shl(a + b, k) == Shl(a, k) + Shl(b, k)
  {
    if k > 0 { ShlAdds(a, b, k - 1); }
  }

  lemma {:induction false} ShlOne(k: nat)
    ensures Shl(1, k) == Pow2(k)
  {
    if k > 0 { ShlOne(k - 1); }
  }

  lemma {:induction false} ShlTwice(a: nat, i: nat, j: nat)
    ensures Shl(Shl(a, i), j) == Shl(a, i + j)
  {
    if j > 0 { ShlTwice(a, i, j - 1); }
  }

  /** Doubling before or after. */
  lemma ShlDouble(a: nat, k: nat)
    ensures Shl(2 * a, k) == 2 * Shl(a, k) == Shl(a, k + 1)
  {
    ShlAdds(a, a, k);
  }

  lemma {:induction false} Decompose(r: nat)
    requires r > 0
    ensures r == Shl(Odd(r), Low(r)) && Pow2(Low(r)) <= r
  {
    if r % 2 == 0 { Decompose(r / 2); }
  }

  lemma {:induction false} Compose(o: nat, k: nat)
    requires o % 2 == 1
    ensures Shl(o, k) > 0 && Low(Shl(o, k)) == k && Odd(Shl(o, k)) == o
  {
    if k > 0 { Compose(o, k - 1); }
  }

  /** The search for the lowest bit: below it every test fails, at it the test succeeds. */
  lemma {:induction false} AndPow2(k: nat, r: nat)
    requires r > 0 && k <= Low(r)
    ensures BitAnd(Pow2(k), r) != 0 <==> k == Low(r)
  {
    if k > 0 { AndPow2(k - 1, r / 2); }
  }

  lemma XorDouble(a: nat, b: nat)
    ensures BitXor(2 * a, 2 * b) == 2 * BitXor(a, b)
  {
  }

  lemma XorOne(r: nat)
    requires r % 2 == 1
    ensures BitXor(r, 1) == r - 1
  {
    assert BitXor(r / 2, 0) == r / 2;
  }

  /** Clearing the lowest bit. */
  lemma {:induction false} XorLow(r: nat)
    requires r > 0
    ensures BitXor(r, Pow2(Low(r))) == r - Pow2(Low(r))
  {
    hide BitXor;
    if r % 2 == 1 {
      XorOne(r);
    } else {
      XorLow(r / 2);
      XorDouble(r / 2, Pow2(Low(r / 2)));
    }
  }

  lemma OrDouble(a: nat, b: nat)
    ensures BitOr(2 * a, 2 * b) == 2 * BitOr(a, b)
  {
  }

  lemma OrOne(m: nat)
    ensures BitOr(m, 1) == if m % 2 == 1 then m else m + 1
  {
    assert BitOr(m / 2, 0) == m / 2;
  }

  /** Setting a bit that is set, or is the lowest but clear. */
  lemma {:induction false} OrPow2(m: nat, k: nat)
    ensures BitOr(Shl(m, k), Pow2(k)) == Shl(if m % 2 == 1 then m else m + 1, k)
  {
    hide BitOr;
    if k == 0 {
      OrOne(m);
    } else {
      OrPow2(m, k - 1);
      OrDouble(Shl(m, k - 1), Pow2(k - 1));
    }
  }

  lemma OddHalf(o: nat)
    requires o % 2 == 1
    ensures o % 4 == 1 <==> (o / 2) % 2 == 0
  {
  }

  /** An odd number at a bit is an even one above it and the bit itself. */
  lemma Halve(o: nat, k: nat)
    requires o % 2 == 1
    ensures Shl(o, k) == Shl(o / 2, k + 1) + Pow2(k) && Shl(1, k + 1) == Pow2(k + 1) == 2 * Pow2(k)
  {
    var m := o / 2;
    ShlAdds(2 * m, 1, k);
    ShlDouble(m, k);
    ShlOne(k);
    ShlOne(k + 1);
  }

  // ---------------------------------------------------------------- the tree ncclGetBtree describes

  /** The parent of rank `r`. */
  function Up(n: nat, r: nat): nat
    requires 0 < r < n
  {
    Decompose(r);
    var bit := Pow2(Low(r));
    if Odd(r) % 4 == 1 && r + bit < n then r + bit else r - bit
  }

  /** Which child of its parent it is. */
  function Kind(n: nat, r: nat): int
    requires 0 < r < n
  {
    if r < Up(n, r) then 0 else 1
  }

  /** `r` plus the largest power of two below 2^k that stays below `n`. */
  function Fit(n: nat, r: nat, k: nat): int {
    if k == 0 then -1 else if r + Pow2(k - 1) < n then r + Pow2(k - 1) else Fit(n, r, k - 1)
  }

  function Down0(n: nat, r: nat): int
    requires r < n
  {
    if r == 0 || Low(r) == 0 then -1 else r - Pow2(Low(r) - 1)
  }

  function Down1(n: nat, r: nat): int
    requires r < n
  {
    Fit(n, r, if r == 0 then CeilLog2(n) else Low(r))
  }

  lemma UpByBits(n: nat, r: nat)
    requires 0 < r < n
    ensures var bit := Pow2(Low(r));
      && BitXor(r, bit) == r - bit
      && BitOr(r - bit, 2 * bit) == if Odd(r) % 4 == 1 then r + bit else r - bit
  {
    hide BitOr, BitXor, Low, Odd;
    Decompose(r);
    XorLow(r);
    var k, m := Low(r), Odd(r) / 2;
    Halve(Odd(r), k);
    OddHalf(Odd(r));
    hide Shl, Pow2;
    ShlAdds(m, 1, k + 1);
    OrPow2(m, k + 1);
  }

  /** The loop that looks for the lowest set bit, or for rank 0 the first power of two not below nranks. */
  method FindBit(nranks: nat, rank: nat) returns (bit: nat)
    requires rank < nranks
    ensures bit == Pow2(if rank == 0 then CeilLog2(nranks) else Low(rank))
  {
    hide BitAnd, CeilLog2;
    bit := 1;
    ghost var k := 0;
    while bit < nranks && BitAnd(bit, rank) == 0
      invariant bit == Pow2(k) && (rank > 0 ==> k <= Low(rank)) && (k >= 1 ==> Pow2(k - 1) < nranks)
      decreases nranks - bit
    {
      if rank > 0 { AndPow2(k, rank); }
      bit := 2 * bit;
      k := k + 1;
    }
    if rank == 0 {
      AndZero(bit);
      CeilLog2Unique(nranks, k);
    } else {
      Decompose(rank);
      AndPow2(k, rank);
      Pow2Mono(k, Low(rank));
    }
  }

  /** The loop that looks for a second child within bounds. */
  method FitChild(nranks: nat, rank: nat, bit: nat, ghost k: nat) returns (down1: int)
    requires rank < nranks && bit == Pow2(k)
    ensures down1 == Fit(nranks, rank, k)
  {
    var lowbit := bit / 2;
    down1 := if lowbit == 0 then -1 else rank + lowbit;
    ghost var e: nat := k;
    while down1 >= nranks
      invariant e <= k && lowbit == (if e == 0 then 0 else Pow2(e - 1))
      invariant if down1 < nranks then down1 == Fit(nranks, rank, k) else Fit(nranks, rank, k) == Fit(nranks, rank, e)
      decreases e, if down1 >= nranks then 1 else 0
    {
      down1 := if lowbit == 0 then -1 else rank + lowbit;
      lowbit := lowbit / 2;
      if e > 0 { e := e - 1; }
    }
  }

  /** ncclGetBtree. For rank 0 the child type is left as it was. */
  method GetBtree(nranks: nat, rank: nat, childType: int) returns (u: int, d0: int, d1: int, parentChildType: int)
    requires rank < nranks
    ensures rank == 0 ==> u == -1 && parentChildType == childType
    ensures rank > 0 ==> u == Up(nranks, rank) && parentChildType == Kind(nranks, rank)
    ensures d0 == Down0(nranks, rank) && d1 == Down1(nranks, rank)
  {
    hide BitOr, BitXor, CeilLog2;
    var bit := FindBit(nranks, rank);
    if rank == 0 {
      CeilLog2Bounds(nranks);
      CeilLog2Of1();
      return -1, -1, if nranks > 1 then bit / 2 else -1, childType;
    }
    UpByBits(nranks, rank);
    var up := BitOr(BitXor(rank, bit), 2 * bit);
    if up >= nranks { up := BitXor(rank, bit); }
    parentChildType := if rank < up then 0 else 1;
    u := up;
    var lowbit := bit / 2;
    d0 := if lowbit == 0 then -1 else rank - lowbit;
    d1 := FitChild(nranks, rank, bit, Low(rank));
  }

  lemma CeilLog2Of1()
    ensures CeilLog2(1) == 0
  {
  }

  lemma AndZero(a: nat)
    ensures BitAnd(a, 0) == 0
  {
  }

  // ---------------------------------------------------------------- parents and children agree

  /** Which powers of two Fit skips and where it stops. */
  lemma {:induction false} FitIs(n: nat, r: nat, k: nat, j: nat)
    requires j < k && r + Pow2(j) < n && (j + 1 < k ==> r + Pow2(j + 1) >= n)
    ensures Fit(n, r, k) == r + Pow2(j)
  {
    if j + 1 < k {
      Pow2Mono(j + 1, k - 1);
      FitIs(n, r, k - 1, j);
    }
  }

  lemma {:induction false} FitFinds(n: nat, r: nat, k: nat) returns (j: nat)
    requires Fit(n, r, k) != -1
    ensures j < k && Fit(n, r, k) == r + Pow2(j) < n && (j + 1 < k ==> r + Pow2(j + 1) >= n)
  {
    if r + Pow2(k - 1) < n {
      j := k - 1;
    } else {
      j := FitFinds(n, r, k - 1);
      if j + 1 == k - 1 { assert r + Pow2(j + 1) >= n; }
    }
  }

  lemma Pow2Next(k: nat)
    ensures Pow2(k + 1) == 2 * Pow2(k)
  {
  }

  lemma OddModFour(q: nat)
    ensures (2 * q + 1) % 4 == if q % 2 == 1 then 3 else 1
  {
  }

  /** A number whose lowest bit is above j is an even multiple of 2^j. */
  lemma EvenMultiple(r: nat, j: nat) returns (q: nat)
    requires r > 0 && j < Low(r)
    ensures r == Shl(2 * q, j) && (2 * q + 1) % 4 == if j + 1 == Low(r) then 3 else 1
  {
    Decompose(r);
    var rest := Low(r) - j - 1;
    q := Shl(Odd(r), rest);
    hide Low, Odd;
    ShlTwice(Odd(r), rest, j + 1);
    ShlDouble(q, j);
    OddModFour(q);
  }

  /** Just above the lowest bit of r + 2^j, for a j below the lowest bit of r. */
  lemma AddBit(r: nat, j: nat)
    requires r == 0 || j < Low(r)
    ensures Low(r + Pow2(j)) == j
    ensures Odd(r + Pow2(j)) % 4 == if r > 0 && j + 1 == Low(r) then 3 else 1
  {
    hide Low, Odd, Pow2, Shl;
    if r == 0 {
      ShlOne(j);
      Compose(1, j);
    } else {
      var q := EvenMultiple(r, j);
      BitAbove(r, q, j);
    }
  }

  lemma BitAbove(r: nat, q: nat, j: nat)
    requires r == Shl(2 * q, j)
    ensures r + Pow2(j) > 0 && Low(r + Pow2(j)) == j && Odd(r + Pow2(j)) == 2 * q + 1
  {
    hide Low, Odd, Pow2, Shl;
    ShlOne(j);
    ShlAdds(2 * q, 1, j);
    Compose(2 * q + 1, j);
  }

  lemma BitBelow(p: nat, o: nat, j: nat)
    requires p == Shl(o, j + 1) && o > 0
    ensures p > Pow2(j) && Low(p - Pow2(j)) == j && Odd(p - Pow2(j)) == 2 * o - 1
  {
    hide Low, Odd, Pow2, Shl;
    ShlDouble(o, j);
    ShlAdds(2 * o - 1, 1, j);
    ShlOne(j);
    Compose(2 * o - 1, j);
  }

  /** A child names its parent, and knows which child it is. */
  lemma ChildKnowsParent(n: nat, p: nat, i: int)
    requires p < n && (i == 0 || i == 1)
    ensures var c := if i == 0 then Down0(n, p) else Down1(n, p);
      c != -1 ==> 0 < c < n && Up(n, c) == p && Kind(n, c) == i
  {
    if i == 0 && Down0(n, p) != -1 {
      SubBit(p);
    }
    if i == 1 && Down1(n, p) != -1 {
      hide Low, Odd;
      var k := if p == 0 then CeilLog2(n) else Low(p);
      var j := FitFinds(n, p, k);
      AddBit(p, j);
      if p == 0 && j + 1 == k { CeilLog2Bounds(n); }
    }
  }

  /** Half a bit below the lowest one. */
  lemma SubBit(p: nat)
    requires p > 0 && Low(p) > 0
    ensures p > Pow2(Low(p) - 1)
    ensures Low(p - Pow2(Low(p) - 1)) == Low(p) - 1 && Odd(p - Pow2(Low(p) - 1)) % 4 == 1
  {
    hide Low, Odd, Pow2, Shl;
    Decompose(p);
    var k, o := Low(p), Odd(p);
    BitBelow(p, o, k - 1);
    OddModFour(o - 1);
  }

  /** The parent of a rank has it as the child it says it is. */
  lemma ParentKnowsChild(n: nat, r: nat)
    requires 0 < r < n
    ensures var p := Up(n, r);
      p < n && p != r && r == if Kind(n, r) == 0 then Down0(n, p) else Down1(n, p)
  {
    hide Low, Odd, Pow2, CeilLog2, Fit;
    Decompose(r);
    var k, o := Low(r), Odd(r);
    var bit := Pow2(k);
    if o % 4 == 1 && r + bit < n {
      AboveBit(r);
    } else {
      BelowParent(n, r);
      var p := r - bit;
      FitIs(n, p, if p == 0 then CeilLog2(n) else Low(p), k);
    }
  }

  /** Adding the lowest bit of 4a + 1 moves it up by one. */
  lemma AboveBit(r: nat)
    requires r > 0 && Odd(r) % 4 == 1
    ensures Low(r + Pow2(Low(r))) == Low(r) + 1 && Pow2(Low(r) + 1) == 2 * Pow2(Low(r))
  {
    hide Low, Odd, Pow2, Shl;
    Decompose(r);
    var k, o := Low(r), Odd(r);
    var h := (o + 1) / 2;
    ShlAdds(o, 1, k);
    ShlOne(k);
    ShlDouble(h, k);
    Pow2Next(k);
    Compose(h, k + 1);
  }

  lemma LowOfMultiple(m: nat, e: nat)
    requires m > 0
    ensures Shl(m, e) > 0 && Low(Shl(m, e)) == Low(m) + e
  {
    hide Low, Odd, Pow2, Shl;
    Decompose(m);
    ShlTwice(Odd(m), Low(m), e);
    Compose(Odd(m), Low(m) + e);
  }

  lemma LowOfOdd(m: nat)
    requires m % 2 == 1
    ensures Low(m) == 0
  {
  }

  /** Where the lowest bit of r - 2^k is, and that nothing between fits. */
  lemma BelowParent(n: nat, r: nat)
    requires 0 < r < n && !(Odd(r) % 4 == 1 && r + Pow2(Low(r)) < n)
    ensures var p, k := r - Pow2(Low(r)), Low(r);
      var top := if p <= 0 then CeilLog2(n) else Low(p);
      p >= 0 && k < top && (k + 1 < top ==> p + Pow2(k + 1) >= n)
  {
    hide Low, Odd, Pow2, CeilLog2, Shl;
    Decompose(r);
    var k, o := Low(r), Odd(r);
    Halve(o, k);
    OddHalf(o);
    if o / 2 == 0 {
      ShlAdds(0, 0, k + 1);
      RootAbove(n, k);
    } else {
      LowOfMultiple(o / 2, k + 1);
      if o % 4 == 3 { LowOfOdd(o / 2); }
    }
  }

  lemma RootAbove(n: nat, k: nat)
    requires Pow2(k) < n
    ensures k < CeilLog2(n) && (Pow2(k) + Pow2(k) >= n ==> CeilLog2(n) == k + 1)
  {
    hide Pow2, CeilLog2;
    CeilLog2Bounds(n);
    if CeilLog2(n) <= k { Pow2Mono(CeilLog2(n), k); }
    Pow2Next(k);
    if k + 1 < CeilLog2(n) { Pow2Mono(k + 1, CeilLog2(n) - 1); }
  }

  // ---------------------------------------------------------------- depth

  lemma UpRises(n: nat, r: nat)
    requires 0 < r < n
    ensures Up(n, r) < n && (Up(n, r) > 0 ==> Low(Up(n, r)) > Low(r) && Pow2(Low(Up(n, r))) > Pow2(Low(r)))
  {
    hide Low, Odd, Pow2, CeilLog2;
    Decompose(r);
    if Odd(r) % 4 == 1 && r + Pow2(Low(r)) < n { AboveBit(r); } else { BelowParent(n, r); }
    if Up(n, r) > 0 { Pow2Mono(Low(r), Low(Up(n, r))); }
  }

  /** Hops from a rank to the root. */
  ghost function Distance(n: nat, r: nat): nat
    requires r < n
    decreases if r == 0 then 0 else n - Pow2(Low(r))
  {
    if r == 0 then 0
    else
      Decompose(r);
      UpRises(n, r);
      if Up(n, r) > 0 then Decompose(Up(n, r)); 1 + Distance(n, Up(n, r)) else 1
  }

  lemma {:induction false} DistanceBound(n: nat, r: nat)
    requires r < n
    ensures Distance(n, r) + (if r == 0 then 0 else Low(r)) <= CeilLog2(n)
    decreases if r == 0 then 0 else n - Pow2(Low(r))
  {
    hide Low, Odd, Pow2, CeilLog2, Up;
    if r > 0 {
      Decompose(r);
      UpRises(n, r);
      CeilLog2Bounds(n);
      if CeilLog2(n) <= Low(r) { Pow2Mono(CeilLog2(n), Low(r)); }
      if Up(n, r) > 0 {
        Decompose(Up(n, r));
        DistanceBound(n, Up(n, r));
      }
    }
  }

  // ---------------------------------------------------------------- the double tree

  /** The position of a rank in the tree that ncclGetBtree describes: itself, or mirrored or shifted for the second tree. */
  function Position(n: nat, second: bool, r: nat): (i: nat)
    requires r < n
    ensures i < n
  {
    if !second then r else if n % 2 == 1 then (if r == 0 then n - 1 else r - 1) else n - 1 - r
  }

  /** The rank at a position. */
  function RankAt(n: nat, second: bool, i: int): (r: int)
    requires -1 <= i < n
    ensures -1 <= r < n && (r == -1 <==> i == -1)
    ensures r >= 0 ==> Position(n, second, r) == i
  {
    if i == -1 then -1 else if !second then i else if n % 2 == 1 then (if i == n - 1 then 0 else i + 1) else n - 1 - i
  }

  function Parent(n: nat, second: bool, r: nat): int
    requires r < n
  {
    var i := Position(n, second, r);
    if i == 0 then -1 else
      UpRises(n, i);
      RankAt(n, second, Up(n, i))
  }

  function ChildType(n: nat, second: bool, r: nat): int
    requires r < n && Position(n, second, r) > 0
  {
    Kind(n, Position(n, second, r))
  }

  function Child(n: nat, second: bool, r: nat, k: int): int
    requires r < n && (k == 0 || k == 1)
  {
    var i := Position(n, second, r);
    ChildKnowsParent(n, i, k);
    RankAt(n, second, ChildAt(n, i, k))
  }

  function ChildAt(n: nat, i: nat, k: int): (c: int)
    requires i < n && (k == 0 || k == 1)
    ensures -1 <= c < n
  {
    ChildKnowsParent(n, i, k);
    DownInRange(n, i);
    if k == 0 then Down0(n, i) else Down1(n, i)
  }

  lemma DownInRange(n: nat, r: nat)
    requires r < n
    ensures Down0(n, r) >= -1 && Down1(n, r) >= -1
  {
    if r > 0 && Low(r) > 0 { SubBit(r); }
    FitInRange(n, r, if r == 0 then CeilLog2(n) else Low(r));
  }

  lemma {:induction false} FitInRange(n: nat, r: nat, k: nat)
    ensures Fit(n, r, k) >= -1
  {
    if k > 0 { FitInRange(n, r, k - 1); }
  }

  /** ncclGetDtree. */
  method GetDtree(nranks: nat, rank: nat, childType0: int, childType1: int)
    returns (s0: int, d0_0: int, d0_1: int, parentChildType0: int, s1: int, d1_0: int, d1_1: int, parentChildType1: int)
    requires rank < nranks
    ensures s0 == Parent(nranks, false, rank) && d0_0 == Child(nranks, false, rank, 0) && d0_1 == Child(nranks, false, rank, 1)
    ensures s1 == Parent(nranks, true, rank) && d1_0 == Child(nranks, true, rank, 0) && d1_1 == Child(nranks, true, rank, 1)
    ensures parentChildType0 == if s0 == -1 then childType0 else ChildType(nranks, false, rank)
    ensures parentChildType1 == if s1 == -1 then childType1 else ChildType(nranks, true, rank)
  {
    hide Up, Kind, Down0, Down1;
    s0, d0_0, d0_1, parentChildType0 := GetBtree(nranks, rank, childType0);
    DownInRange(nranks, rank);
    DownInRange(nranks, Position(nranks, true, rank));
    if nranks % 2 == 1 {
      var shiftrank := (rank - 1 + nranks) % nranks;
      ShiftIsPosition(nranks, rank);
      var u, d0, d1;
      u, d0, d1, parentChildType1 := GetBtree(nranks, shiftrank, childType1);
      if shiftrank > 0 { UpRises(nranks, shiftrank); }
      ChildKnowsParent(nranks, shiftrank, 0);
      ChildKnowsParent(nranks, shiftrank, 1);
      s1 := if u == -1 then -1 else (u + 1) % nranks;
      d1_0 := if d0 == -1 then -1 else (d0 + 1) % nranks;
      d1_1 := if d1 == -1 then -1 else (d1 + 1) % nranks;
      if u != -1 { ShiftBack(nranks, u); }
      if d0 != -1 { ShiftBack(nranks, d0); }
      if d1 != -1 { ShiftBack(nranks, d1); }
    } else {
      var u, d0, d1;
      u, d0, d1, parentChildType1 := GetBtree(nranks, nranks - 1 - rank, childType1);
      s1 := if u == -1 then -1 else nranks - 1 - u;
      d1_0 := if d0 == -1 then -1 else nranks - 1 - d0;
      d1_1 := if d1 == -1 then -1 else nranks - 1 - d1;
    }
  }

  lemma ShiftIsPosition(n: nat, r: nat)
    requires r < n && n % 2 == 1
    ensures (r - 1 + n) % n == Position(n, true, r)
  {
    if r == 0 { DivUnique(n - 1, n, 0, n - 1); } else { DivUnique(r - 1 + n, n, 1, r - 1); }
  }

  lemma ShiftBack(n: nat, i: nat)
    requires i < n && n % 2 == 1
    ensures (i + 1) % n == RankAt(n, true, i)
  {
    if i == n - 1 { DivUnique(n, n, 1, 0); } else { DivUnique(i + 1, n, 0, i + 1); }
  }

  // ---------------------------------------------------------------- what the trees promise

  lemma RankOfPosition(n: nat, second: bool, r: nat)
    requires r < n
    ensures RankAt(n, second, Position(n, second, r)) == r
  {
  }

  /** Each tree has exactly one root. */
  lemma OneRoot(n: nat, second: bool, r: nat)
    requires r < n
    ensures Parent(n, second, r) == -1 <==> r == RankAt(n, second, 0)
  {
    hide Up;
    RankOfPosition(n, second, r);
    if Position(n, second, r) > 0 { UpRises(n, Position(n, second, r)); }
  }

  /** In both trees, the parent a rank names has that rank as the child the rank says it is. */
  lemma TreeParentKnowsChild(n: nat, second: bool, r: nat)
    requires r < n && Parent(n, second, r) != -1
    ensures 0 <= Parent(n, second, r) < n && Parent(n, second, r) != r
    ensures ChildType(n, second, r) == 0 || ChildType(n, second, r) == 1
    ensures Child(n, second, Parent(n, second, r), ChildType(n, second, r)) == r
  {
    hide Up, Down0, Down1;
    var i := Position(n, second, r);
    UpRises(n, i);
    ParentKnowsChild(n, i);
    RankOfPosition(n, second, r);
  }

  /** ... and every child a rank names has that rank as its parent, and is the child it is named as. */
  lemma TreeChildKnowsParent(n: nat, second: bool, p: nat, k: int)
    requires p < n && (k == 0 || k == 1) && Child(n, second, p, k) != -1
    ensures var c := Child(n, second, p, k);
      0 <= c < n && Parent(n, second, c) == p && ChildType(n, second, c) == k
  {
    hide Up, Down0, Down1, Kind;
    var i := Position(n, second, p);
    ChildKnowsParent(n, i, k);
    RankOfPosition(n, second, p);
  }

  /** Following parents from `r` ends at the root after at most `hops` steps. */
  ghost predicate ReachesRoot(n: nat, second: bool, r: nat, hops: nat)
    requires r < n
    decreases hops
  {
    var p := Parent(n, second, r);
    p == -1 || (hops > 0 && 0 <= p < n && ReachesRoot(n, second, p, hops - 1))
  }

  lemma {:induction false} WithinDistance(n: nat, second: bool, r: nat, hops: nat)
    requires r < n && Distance(n, Position(n, second, r)) <= hops
    ensures ReachesRoot(n, second, r, hops)
    decreases hops
  {
    hide Up, Low, Pow2;
    var i := Position(n, second, r);
    if i > 0 {
      UpRises(n, i);
      assert Position(n, second, Parent(n, second, r)) == Up(n, i);
      assert Distance(n, i) >= 1 + Distance(n, Up(n, i));
      WithinDistance(n, second, Parent(n, second, r), hops - 1);
    }
  }

  /** Every rank reaches the root of either tree within ceil(log2 n) hops. */
  lemma DepthIsLogarithmic(n: nat, second: bool, r: nat)
    requires r < n
    ensures ReachesRoot(n, second, r, CeilLog2(n))
  {
    hide CeilLog2, Low, ReachesRoot;
    DistanceBound(n, Position(n, second, r));
    WithinDistance(n, second, r, CeilLog2(n));
  }

  function Count(n: nat, second: bool, r: nat): nat
    requires r < n
  {
    (if Child(n, second, r, 0) == -1 then 0 else 1) + (if Child(n, second, r, 1) == -1 then 0 else 1)
  }

  lemma OddIsLeaf(n: nat, i: nat)
    requires i < n && i % 2 == 1
    ensures Down0(n, i) == -1 && Down1(n, i) == -1
  {
  }

  /** The ends of the tree have at most one child. */
  lemma EndsHaveOneChild(n: nat, i: nat)
    requires n >= 1 && (i == 0 || i == n - 1)
    ensures Down0(n, i) == -1 || Down1(n, i) == -1
  {
    if i > 0 { NothingFits(n, i, Low(i)); }
  }

  lemma {:induction false} NothingFits(n: nat, i: nat, k: nat)
    requires i == n - 1
    ensures Fit(n, i, k) == -1
  {
    if k > 0 { NothingFits(n, i, k - 1); }
  }

  /** A rank at an even position of both trees is at opposite ends of them. */
  lemma PositionParity(n: nat, r: nat)
    requires r < n
    ensures Position(n, false, r) == r && Position(n, true, r) < n
    ensures r % 2 == 0 && Position(n, true, r) % 2 == 0 ==> r == 0 && Position(n, true, r) == n - 1
  {
  }

  /** Over the two trees together no rank has more than two children. */
  lemma AtMostTwoChildren(n: nat, r: nat)
    requires r < n
    ensures Count(n, false, r) + Count(n, true, r) <= 2
  {
    PositionParity(n, r);
    hide Down0, Down1, Up, Position;
    var i := Position(n, true, r);
    if r % 2 == 1 {
      OddIsLeaf(n, r);
    } else if i % 2 == 1 {
      OddIsLeaf(n, i);
    } else {
      EndsHaveOneChild(n, r);
      EndsHaveOneChild(n, i);
    }
  }
}
