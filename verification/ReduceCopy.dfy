/**
 How reduceCopy (src/device/common_kernel.h) divides bytes among threads. One pass works on hunks of
 Unroll * WARP_SIZE packs, one hunk per warp and iteration; only a pass with Unroll 1 can end with a
 partial hunk. After a pass the warps are renumbered so that the one that did least is first.
 */
module ReduceCopy {
  import opened Arith

  const WARP_SIZE: nat := 32

  /** The compile-time shape of a pass. */
  datatype Shape = Shape(unroll: nat, pack: nat)

  predicate ShapeOk(sh: Shape) { sh.unroll >= 1 && sh.pack >= 1 }

  function HunkBytes(sh: Shape): (b: nat)
    requires ShapeOk(sh)
    ensures b >= 1
  {
    MulNonNeg(sh.unroll * WARP_SIZE, sh.pack);
    MulMono(1, sh.unroll * WARP_SIZE, sh.pack);
    sh.unroll * WARP_SIZE * sh.pack
  }

  function Full(sh: Shape, ahead: nat): (n: nat)
    requires ShapeOk(sh)
  {
    DivNonNeg(ahead, HunkBytes(sh));
    ahead / HunkBytes(sh)
  }

  function Rest(sh: Shape, ahead: nat): nat
    requires ShapeOk(sh)
  {
    ahead % HunkBytes(sh)
  }

  /** The last, incomplete hunk of a pass with Unroll 1. */
  predicate Partial(sh: Shape, ahead: nat)
    requires ShapeOk(sh)
  {
    sh.unroll == 1 && sh.pack <= Rest(sh, ahead)
  }

  function Hunks(sh: Shape, ahead: nat): nat
    requires ShapeOk(sh)
  {
    Full(sh, ahead) + if Partial(sh, ahead) then 1 else 0
  }

  /** Bytes a pass takes care of. */
  function Consumed(sh: Shape, ahead: nat): nat
    requires ShapeOk(sh)
  {
    MulNonNeg(Full(sh, ahead), HunkBytes(sh));
    Full(sh, ahead) * HunkBytes(sh) + if Partial(sh, ahead) then Rest(sh, ahead) - Rest(sh, ahead) % sh.pack else 0
  }

  /** A lane takes part in hunk `h`. */
  predicate Executes(sh: Shape, ahead: nat, h: nat, lane: nat)
    requires ShapeOk(sh)
  {
    h < Full(sh, ahead) || (h == Full(sh, ahead) && Partial(sh, ahead) && (lane + 1) * sh.pack <= Rest(sh, ahead))
  }

  /** Where a lane is in hunk `h`. */
  function LaneAt(sh: Shape, h: nat, lane: nat): nat
    requires ShapeOk(sh)
  {
    MulNonNeg(h, HunkBytes(sh));
    MulNonNeg(lane, sh.pack);
    h * HunkBytes(sh) + lane * sh.pack
  }

  /** Where a lane's u-th pack of hunk `h` starts. */
  function Start(sh: Shape, h: nat, u: nat, lane: nat): nat
    requires ShapeOk(sh)
  {
    MulNonNeg(h, HunkBytes(sh));
    MulNonNeg(u * WARP_SIZE + lane, sh.pack);
    h * HunkBytes(sh) + (u * WARP_SIZE + lane) * sh.pack
  }

  // ---------------------------------------------------------------- one thread's loop

  /** Both forms of the loop condition say whether the lane takes part in hunk `h`. */
  lemma LoopCondition(sh: Shape, ahead: nat, h: nat, lane: nat)
    requires ShapeOk(sh) && lane < WARP_SIZE
    ensures sh.unroll == 1 ==> (sh.pack <= ahead - LaneAt(sh, h, lane) <==> Executes(sh, ahead, h, lane))
    ensures sh.unroll != 1 ==> (0 < Hunks(sh, ahead) - h <==> Executes(sh, ahead, h, lane))
  {
    if sh.unroll == 1 {
      var b, f, r := HunkBytes(sh), Full(sh, ahead), Rest(sh, ahead);
      DivModFacts(ahead, b);
      assert b == WARP_SIZE * sh.pack;
      MulMono(lane + 1, WARP_SIZE, sh.pack);
      assert (lane + 1) * sh.pack == lane * sh.pack + sh.pack;
      if h < f {
        MulMono(h + 1, f, b);
        assert (h + 1) * b == h * b + b;
      } else if h > f {
        MulMono(f + 1, h, b);
        assert (f + 1) * b == f * b + b;
        MulNonNeg(lane, sh.pack);
      } else {
        MulMono(1, lane + 1, sh.pack);
      }
    }
  }

  /** The byte positions one thread handles, hunk by hunk. */
  function Packs(sh: Shape, behind: nat, h: nat, lane: nat, u: nat): seq<nat>
    requires ShapeOk(sh)
  {
    if u == 0 then [] else Packs(sh, behind, h, lane, u - 1) + [behind + Start(sh, h, u - 1, lane)]
  }

  /** All of them, in the first `n` iterations. */
  function Work(sh: Shape, behind: nat, warp: nat, warps: nat, lane: nat, n: nat): seq<nat>
    requires ShapeOk(sh)
  {
    if n == 0 then []
    else
      Work(sh, behind, warp, warps, lane, n - 1) + Packs(sh, behind, HunkAt(warp, warps, n - 1), lane, sh.unroll)
  }

  /** The renumbering of the warps after `hunks` hunks. */
  function Rotated(warp: nat, hunks: nat, warps: nat): (r: nat)
    requires warps >= 1
    ensures r < warps
  {
    DivModFacts(warp - hunks, warps);
    (warp - hunks) % warps
  }

  /** The inner loops over u: the pointer moves by one row of packs each time. */
  method HandlePacks(sh: Shape, start: nat, ghost behind: nat, ghost h: nat, ghost lane: nat) returns (done: seq<nat>, ptr: nat)
    requires ShapeOk(sh) && start == behind + LaneAt(sh, h, lane)
    ensures done == Packs(sh, behind, h, lane, sh.unroll)
    ensures ptr == start + HunkBytes(sh)
  {
    done, ptr := [], start;
    for u := 0 to sh.unroll
      invariant done == Packs(sh, behind, h, lane, u)
      invariant ptr == start + u * (WARP_SIZE * sh.pack)
    {
      assert (u * WARP_SIZE + lane) * sh.pack == u * (WARP_SIZE * sh.pack) + lane * sh.pack;
      done := done + [ptr];
      assert (u + 1) * (WARP_SIZE * sh.pack) == u * (WARP_SIZE * sh.pack) + WARP_SIZE * sh.pack;
      ptr := ptr + WARP_SIZE * sh.pack;
    }
    assert sh.unroll * (WARP_SIZE * sh.pack) == sh.unroll * WARP_SIZE * sh.pack;
  }

  /** The hunks of one warp: `n` iterations, all taken part in, and not one more. */
  ghost predicate Iterates(sh: Shape, ahead: nat, warp: nat, warps: nat, lane: nat, n: nat)
    requires ShapeOk(sh)
  {
    && (forall i: nat :: i < n ==> Executes(sh, ahead, HunkAt(warp, warps, i), lane))
    && (forall i: nat :: i >= n ==> !Executes(sh, ahead, HunkAt(warp, warps, i), lane))
  }

  /** The hunk a warp works on in iteration `i`. */
  function HunkAt(warp: nat, warps: nat, i: nat): nat {
    MulNonNeg(i, warps);
    warp + i * warps
  }

  lemma LaterHunks(sh: Shape, ahead: nat, warp: nat, warps: nat, lane: nat, n: nat, i: nat)
    requires ShapeOk(sh) && n <= i && warps >= 1 && !Executes(sh, ahead, HunkAt(warp, warps, n), lane)
    ensures !Executes(sh, ahead, HunkAt(warp, warps, i), lane)
  {
    MulMono(n, i, warps);
    if n < i {
      MulMono(n + 1, i, warps);
      assert (n + 1) * warps == n * warps + warps;
    }
  }

  /** Where the walk over the hunks ends decides the new number of the warp. */
  lemma RotationIs(sh: Shape, ahead: nat, warp: nat, warps: nat, lane: nat, n: nat)
    requires ShapeOk(sh) && warp < warps && lane < WARP_SIZE && Iterates(sh, ahead, warp, warps, lane, n)
    ensures var left := Hunks(sh, ahead) - HunkAt(warp, warps, n);
      -(if sh.unroll == 1 && left > 0 then left - warps else left) == Rotated(warp, Hunks(sh, ahead), warps)
  {
    var hunks, h := Hunks(sh, ahead), HunkAt(warp, warps, n);
    var left := hunks - h;
    assert !Executes(sh, ahead, h, lane);
    if n > 0 {
      assert Executes(sh, ahead, HunkAt(warp, warps, n - 1), lane);
      assert n * warps == (n - 1) * warps + warps;
      assert h - warps < hunks;
    }
    if left > 0 { LeftIsOne(sh, ahead, h, lane); }
    hide Executes, Hunks, Iterates;
    ModShift(warp - hunks, warps, n);
    if left > 0 {
      DivUnique(warps - 1, warps, 0, warps - 1);
      assert (warp - hunks + n * warps) % warps == (h - hunks) % warps;
      ModShift(h - hunks, warps, 1);
    } else {
      DivUnique(h - hunks, warps, 0, h - hunks);
    }
  }

  lemma LeftIsOne(sh: Shape, ahead: nat, h: nat, lane: nat)
    requires ShapeOk(sh) && !Executes(sh, ahead, h, lane) && Hunks(sh, ahead) > h
    ensures sh.unroll == 1 && Hunks(sh, ahead) - h == 1
  {
  }

  /** reduceCopyPacks for one thread: what it handles, and where it leaves the collective position and its own number. */
  method ReduceCopyPacks(sh: Shape, nThreads: nat, thread: nat, nBytesBehind: nat, nBytesAhead: nat)
    returns (done: seq<nat>, thread': nat, behind: nat, ahead: nat, ghost n: nat)
    requires ShapeOk(sh) && nThreads % WARP_SIZE == 0 && thread < nThreads
    ensures behind == nBytesBehind + Consumed(sh, nBytesAhead) && ahead == nBytesAhead - Consumed(sh, nBytesAhead)
    ensures thread' == Renumbered(sh, nThreads, thread, nBytesAhead)
    ensures Iterates(sh, nBytesAhead, thread / WARP_SIZE, nThreads / WARP_SIZE, thread % WARP_SIZE, n)
    ensures done == Work(sh, nBytesBehind, thread / WARP_SIZE, nThreads / WARP_SIZE, thread % WARP_SIZE, n)
  {
    hide HunkBytes, Consumed, Hunks, Iterates, Work, Rotated;
    var hunk := HunkBytes(sh);
    var nWarps, warp, lane := nThreads / WARP_SIZE, thread / WARP_SIZE, thread % WARP_SIZE;
    MulNonNeg(warp, hunk);
    MulNonNeg(lane, sh.pack);
    var threadBytesBehind := nBytesBehind + (warp * hunk + lane * sh.pack);
    var threadBytesAhead: int := nBytesAhead - (warp * hunk + lane * sh.pack);
    var nHunksAhead: int;
    behind, ahead, nHunksAhead := Advance(sh, nBytesBehind, nBytesAhead);
    done, n, nHunksAhead := Walk(sh, nWarps, warp, lane, nBytesBehind, nBytesAhead, threadBytesBehind, threadBytesAhead, nHunksAhead - warp);
    RotationIs(sh, nBytesAhead, warp, nWarps, lane, n);
    if sh.unroll == 1 && nHunksAhead > 0 { nHunksAhead := nHunksAhead - nWarps; }
    warp := -nHunksAhead;
    thread' := warp * WARP_SIZE + lane;
  }

  /** The collective position after the pass, and the number of hunks over all warps. */
  method Advance(sh: Shape, nBytesBehind: nat, nBytesAhead: nat) returns (behind: nat, ahead: nat, nHunksAhead: nat)
    requires ShapeOk(sh)
    ensures behind == nBytesBehind + Consumed(sh, nBytesAhead) && ahead == nBytesAhead - Consumed(sh, nBytesAhead)
    ensures nHunksAhead == Hunks(sh, nBytesAhead)
  {
    var hunk := HunkBytes(sh);
    nHunksAhead := Full(sh, nBytesAhead);
    DivModFacts(nBytesAhead, hunk);
    MulNonNeg(nHunksAhead, hunk);
    behind, ahead := nBytesBehind + nHunksAhead * hunk, nBytesAhead - nHunksAhead * hunk;
    assert ahead == Rest(sh, nBytesAhead);
    hide HunkBytes, Full, Rest;
    if sh.unroll == 1 && sh.pack <= ahead {
      nHunksAhead := nHunksAhead + 1;
      DivModFacts(ahead, sh.pack);
      behind := behind + (ahead - ahead % sh.pack);
      ahead := ahead % sh.pack;
    }
  }

  /** Its main loop. */
  method Walk(sh: Shape, nWarps: nat, warp: nat, lane: nat, ghost behind: nat, ghost ahead: nat,
              bytesBehind: nat, bytesAhead: int, hunksAhead: int) returns (done: seq<nat>, ghost n: nat, left: int)
    requires ShapeOk(sh) && warp < nWarps && lane < WARP_SIZE
    requires bytesBehind == behind + LaneAt(sh, warp, lane) && bytesAhead == ahead - LaneAt(sh, warp, lane)
    requires hunksAhead == Hunks(sh, ahead) - warp
    ensures Iterates(sh, ahead, warp, nWarps, lane, n) && done == Work(sh, behind, warp, nWarps, lane, n)
    ensures left == Hunks(sh, ahead) - HunkAt(warp, nWarps, n)
  {
    HunkZero(warp, nWarps);
    hide Executes, Hunks, LaneAt, HunkAt, Packs;
    var threadBytesBehind, threadBytesAhead := bytesBehind, bytesAhead;
    var hunk := HunkBytes(sh);
    done, n, left := [], 0, hunksAhead;
    LoopCondition(sh, ahead, warp, lane);
    while if sh.unroll == 1 then sh.pack <= threadBytesAhead else 0 < left
      invariant left == Hunks(sh, ahead) - HunkAt(warp, nWarps, n)
      invariant threadBytesBehind == behind + LaneAt(sh, HunkAt(warp, nWarps, n), lane)
      invariant threadBytesAhead == ahead - LaneAt(sh, HunkAt(warp, nWarps, n), lane)
      invariant forall i: nat :: i < n ==> Executes(sh, ahead, HunkAt(warp, nWarps, i), lane)
      invariant done == Work(sh, behind, warp, nWarps, lane, n)
      decreases Hunks(sh, ahead) - HunkAt(warp, nWarps, n)
    {
      var h := HunkAt(warp, nWarps, n);
      LoopCondition(sh, ahead, h, lane);
      ExecutesBelow(sh, ahead, h, lane);
      var packs, ptr := HandlePacks(sh, threadBytesBehind, behind, h, lane);
      done := done + packs;
      NextHunk(sh, warp, nWarps, lane, n);
      threadBytesBehind := threadBytesBehind + nWarps * hunk;
      threadBytesAhead := threadBytesAhead - nWarps * hunk;
      left := left - nWarps;
      n := n + 1;
    }
    LoopCondition(sh, ahead, HunkAt(warp, nWarps, n), lane);
    forall i: nat | i >= n ensures !Executes(sh, ahead, HunkAt(warp, nWarps, i), lane) {
      LaterHunks(sh, ahead, warp, nWarps, lane, n, i);
    }
  }

  lemma ExecutesBelow(sh: Shape, ahead: nat, h: nat, lane: nat)
    requires ShapeOk(sh) && Executes(sh, ahead, h, lane)
    ensures h < Hunks(sh, ahead)
  {
  }

  lemma HunkZero(warp: nat, warps: nat)
    ensures HunkAt(warp, warps, 0) == warp
  {
  }

  lemma NextHunk(sh: Shape, warp: nat, warps: nat, lane: nat, n: nat)
    requires ShapeOk(sh)
    ensures HunkAt(warp, warps, n + 1) == HunkAt(warp, warps, n) + warps && warps * HunkBytes(sh) >= 0
    ensures LaneAt(sh, HunkAt(warp, warps, n + 1), lane) == LaneAt(sh, HunkAt(warp, warps, n), lane) + warps * HunkBytes(sh)
  {
    assert (n + 1) * warps == n * warps + warps;
    MulNonNeg(warps, HunkBytes(sh));
    var h, hunk := HunkAt(warp, warps, n), HunkBytes(sh);
    hide HunkBytes, HunkAt;
    assert (h + warps) * hunk == h * hunk + warps * hunk;
  }

  function Renumbered(sh: Shape, nThreads: nat, thread: nat, ahead: nat): (t: nat)
    requires ShapeOk(sh) && nThreads % WARP_SIZE == 0 && thread < nThreads
    ensures t < nThreads
  {
    Rotated(thread / WARP_SIZE, Hunks(sh, ahead), nThreads / WARP_SIZE) * WARP_SIZE + thread % WARP_SIZE
  }

  // ---------------------------------------------------------------- one pass covers its bytes exactly once

  /** The u-th pack a lane handles in hunk `h` contains byte `x`. */
  predicate Contains(sh: Shape, h: nat, u: nat, lane: nat, x: nat)
    requires ShapeOk(sh)
  {
    Start(sh, h, u, lane) <= x < Start(sh, h, u, lane) + sh.pack
  }

  /** Thread number `t` handles byte `x` of the pass, in iteration `i`, as its u-th pack. */
  predicate Handles(sh: Shape, ahead: nat, warps: nat, t: nat, i: nat, u: nat, x: nat)
    requires ShapeOk(sh)
  {
    && u < sh.unroll && Executes(sh, ahead, HunkAt(t / WARP_SIZE, warps, i), t % WARP_SIZE)
    && Contains(sh, HunkAt(t / WARP_SIZE, warps, i), u, t % WARP_SIZE, x)
  }

  /** The only pack that contains a byte. */
  lemma OnlyPack(sh: Shape, x: nat) returns (h: nat, u: nat, lane: nat)
    requires ShapeOk(sh)
    ensures u < sh.unroll && lane < WARP_SIZE && Contains(sh, h, u, lane, x)
    ensures forall h': nat, u': nat, lane': nat ::
      u' < sh.unroll && lane' < WARP_SIZE && Contains(sh, h', u', lane', x) ==> h' == h && u' == u && lane' == lane
  {
    var b := HunkBytes(sh);
    DivModFacts(x, b);
    DivNonNeg(x, b);
    h := x / b;
    var p := PackOf(sh, x % b);
    u, lane := p / WARP_SIZE, p % WARP_SIZE;
    forall h': nat, u': nat, lane': nat | u' < sh.unroll && lane' < WARP_SIZE && Contains(sh, h', u', lane', x)
      ensures h' == h && u' == u && lane' == lane
    {
      SamePack(sh, h', u', lane', x);
    }
  }

  lemma PackOf(sh: Shape, y: nat) returns (p: nat)
    requires ShapeOk(sh) && y < HunkBytes(sh)
    ensures p == y / sh.pack && p < sh.unroll * WARP_SIZE && p * sh.pack <= y < p * sh.pack + sh.pack
  {
    DivModFacts(y, sh.pack);
    DivNonNeg(y, sh.pack);
    p := y / sh.pack;
    if p >= sh.unroll * WARP_SIZE { MulMono(sh.unroll * WARP_SIZE, p, sh.pack); }
  }

  lemma SamePack(sh: Shape, h: nat, u: nat, lane: nat, x: nat)
    requires ShapeOk(sh) && u < sh.unroll && lane < WARP_SIZE && Contains(sh, h, u, lane, x)
    ensures x / HunkBytes(sh) == h && (x % HunkBytes(sh)) / sh.pack == u * WARP_SIZE + lane
  {
    var b, p := HunkBytes(sh), u * WARP_SIZE + lane;
    MulMono(p + 1, sh.unroll * WARP_SIZE, sh.pack);
    assert (p + 1) * sh.pack == p * sh.pack + sh.pack;
    var y := x - h * b;
    MulNonNeg(p, sh.pack);
    DivUnique(x, b, h, y);
    DivUnique(y, sh.pack, p, y - p * sh.pack);
  }

  /** A lane takes part in the hunk of a byte exactly when the pass is to take care of that byte. */
  lemma TakesPartIff(sh: Shape, ahead: nat, h: nat, u: nat, lane: nat, x: nat)
    requires ShapeOk(sh) && u < sh.unroll && lane < WARP_SIZE && Contains(sh, h, u, lane, x)
    ensures Executes(sh, ahead, h, lane) <==> x < Consumed(sh, ahead)
  {
    var b, f, r := HunkBytes(sh), Full(sh, ahead), Rest(sh, ahead);
    SamePack(sh, h, u, lane, x);
    DivModFacts(x, b);
    DivModFacts(ahead, b);
    if h < f {
      MulMono(h + 1, f, b);
      assert (h + 1) * b == h * b + b;
    } else if h > f {
      MulMono(f + 1, h, b);
      assert (f + 1) * b == f * b + b;
      DivModFacts(r, sh.pack);
    } else if Partial(sh, ahead) {
      LastHunk(sh.pack, lane, r, x - h * b);
    }
  }

  lemma LastHunk(pack: nat, lane: nat, r: nat, y: int)
    requires pack >= 1 && lane * pack <= y < lane * pack + pack
    ensures (lane + 1) * pack <= r <==> y < r - r % pack
  {
    DivModFacts(r, pack);
    var q := r / pack;
    assert (lane + 1) * pack == lane * pack + pack;
    if lane < q { MulMono(lane + 1, q, pack); } else { MulMono(q, lane, pack); }
  }

  /** In a pass, every byte to be taken care of is handled by exactly one thread, iteration and pack; no other byte is. */
  lemma PassHandlesOnce(sh: Shape, ahead: nat, warps: nat, x: nat) returns (t: nat, i: nat, u: nat)
    requires ShapeOk(sh) && warps >= 1
    ensures t < warps * WARP_SIZE && (Handles(sh, ahead, warps, t, i, u, x) <==> x < Consumed(sh, ahead))
    ensures forall t': nat, i': nat, u': nat ::
      t' < warps * WARP_SIZE && Handles(sh, ahead, warps, t', i', u', x) ==> t' == t && i' == i && u' == u
  {
    hide Executes, Consumed;
    var h, lane;
    h, u, lane := OnlyPack(sh, x);
    DivModFacts(h, warps);
    DivNonNeg(h, warps);
    t, i := (h % warps) * WARP_SIZE + lane, h / warps;
    TakesPartIff(sh, ahead, h, u, lane, x);
    forall t': nat, i': nat, u': nat | t' < warps * WARP_SIZE && Handles(sh, ahead, warps, t', i', u', x)
      ensures t' == t && i' == i && u' == u
    {
      DivUnique(HunkAt(t' / WARP_SIZE, warps, i'), warps, i', t' / WARP_SIZE);
    }
  }

  // ---------------------------------------------------------------- all passes together

  /** Where the buffers of a call are: addresses of its sources and destinations. */
  datatype Buffers = Buffers(srcs: seq<nat>, dsts: seq<nat>)

  /** The pointers a lane looks at are multiples of `big`. */
  predicate LaneAligned(bufs: Buffers, big: nat, lane: nat) {
    big >= 1 ==> (lane < |bufs.srcs| ==> bufs.srcs[lane] % big == 0) && (lane < |bufs.dsts| ==> bufs.dsts[lane] % big == 0)
  }

  /** The warp's vote: every lane finds its pointers aligned. */
  predicate Aligned(bufs: Buffers, big: nat) { forall lane :: 0 <= lane < WARP_SIZE ==> LaneAligned(bufs, big, lane) }

  /** Each lane checks one source and one destination, and the warp votes. */
  method VoteAligned(bufs: Buffers, big: nat) returns (aligned: bool)
    requires big >= 1
    ensures aligned <==> Aligned(bufs, big)
  {
    aligned := true;
    for lane := 0 to WARP_SIZE
      invariant aligned <==> forall l :: 0 <= l < lane ==> LaneAligned(bufs, big, l)
    {
      var mine := true;
      if lane < |bufs.srcs| { mine := mine && bufs.srcs[lane] % big == 0; }
      if lane < |bufs.dsts| { mine := mine && bufs.dsts[lane] % big == 0; }
      assert mine <==> LaneAligned(bufs, big, lane);
      aligned := aligned && mine;
    }
  }

  /** The passes of reduceCopy: big packs if all pointers are aligned, then packs of one element. */
  function Passes(unroll: nat, size: nat, big: nat, bufs: Buffers): (ps: seq<Shape>)
    requires size >= 1
  {
    (if big > size && Aligned(bufs, big) then [Shape(unroll, big), Shape(1, big)] else []) + [Shape(unroll * (16 / size) / 2, size), Shape(1, size)]
  }

  predicate PassesOk(ps: seq<Shape>) { forall k :: 0 <= k < |ps| ==> ShapeOk(ps[k]) }

  lemma ConsumedBound(sh: Shape, ahead: nat)
    requires ShapeOk(sh)
    ensures Consumed(sh, ahead) <= ahead
  {
    DivModFacts(ahead, HunkBytes(sh));
    DivModFacts(Rest(sh, ahead), sh.pack);
  }

  /** Bytes taken care of by the first `k` passes. */
  function Behind(ps: seq<Shape>, total: nat, k: nat): (b: nat)
    requires PassesOk(ps) && k <= |ps|
    ensures b <= total
  {
    if k == 0 then 0
    else
      var b := Behind(ps, total, k - 1);
      ConsumedBound(ps[k - 1], total - b);
      b + Consumed(ps[k - 1], total - b)
  }

  lemma {:induction false} BehindMono(ps: seq<Shape>, total: nat, j: nat, k: nat)
    requires PassesOk(ps) && j <= k <= |ps|
    ensures Behind(ps, total, j) <= Behind(ps, total, k)
  {
    if j < k { BehindMono(ps, total, j, k - 1); }
  }

  lemma MultipleOf(a: int, b: int, c: nat)
    requires c >= 1
    ensures (a * c) % c == 0 && (a % c == 0 && b % c == 0 ==> (a + b) % c == 0 && (a - b) % c == 0)
  {
    DivUnique(a * c, c, a, 0);
    if a % c == 0 && b % c == 0 {
      DivModFacts(a, c);
      DivModFacts(b, c);
      assert (a / c + b / c) * c == a + b;
      assert (a / c - b / c) * c == a - b;
      DivUnique(a + b, c, a / c + b / c, 0);
      DivUnique(a - b, c, a / c - b / c, 0);
    }
  }

  /** A pass takes whole packs. */
  lemma ConsumedIsWhole(sh: Shape, ahead: nat, size: nat)
    requires ShapeOk(sh) && size >= 1 && sh.pack % size == 0
    ensures Consumed(sh, ahead) % size == 0
  {
    var f, b, r, m := Full(sh, ahead), HunkBytes(sh), Rest(sh, ahead), sh.pack / size;
    DivModFacts(sh.pack, size);
    DivModFacts(r, sh.pack);
    var x, y := f * (sh.unroll * WARP_SIZE * m), (r / sh.pack) * m;
    assert b == sh.unroll * WARP_SIZE * (m * size) == (sh.unroll * WARP_SIZE * m) * size;
    assert f * b == x * size;
    assert r - r % sh.pack == (r / sh.pack) * (m * size) == y * size;
    MultipleOf(x, y, size);
    MultipleOf(x * size, y * size, size);
    MultipleOf(y, x, size);
  }

  /** The last pass leaves nothing. */
  lemma LastPassFinishes(size: nat, ahead: nat)
    requires size >= 1 && ahead % size == 0
    ensures Consumed(Shape(1, size), ahead) == ahead
  {
    var sh := Shape(1, size);
    var b, f, r := HunkBytes(sh), Full(sh, ahead), Rest(sh, ahead);
    DivModFacts(ahead, b);
    assert f * b == (f * WARP_SIZE) * size;
    MultipleOf(f * WARP_SIZE, 0, size);
    MultipleOf(ahead, f * b, size);
    assert r % size == 0;
    if 0 < r < size { DivUnique(r, size, 0, r); }
  }

  /** Together the passes take care of every byte. */
  lemma NothingLeft(unroll: nat, size: nat, big: nat, bufs: Buffers, nElts: nat)
    requires unroll >= 1 && size in {1, 2, 4, 8} && (big > size ==> big % size == 0)
    ensures var ps := Passes(unroll, size, big, bufs);
      PassesOk(ps) && Behind(ps, nElts * size, |ps|) == nElts * size
  {
    var ps, total := Passes(unroll, size, big, bufs), nElts * size;
    UnrollOk(unroll, size);
    assert PassesOk(ps);
    MultipleOf(nElts, 0, size);
    var n := |ps|;
    hide Consumed, Passes;
    assert ps[n - 1] == Shape(1, size);
    forall j | 0 <= j < |ps| ensures Whole(ps[j].pack, size) { PackIsWhole(unroll, size, big, bufs, j); }
    WholeElements(ps, total, n - 1, size);
    var b := Behind(ps, total, n - 1);
    MultipleOf(total, b, size);
    LastPassFinishes(size, total - b);
  }

  lemma PackIsWhole(unroll: nat, size: nat, big: nat, bufs: Buffers, j: nat)
    requires size >= 1 && (big > size ==> big % size == 0) && j < |Passes(unroll, size, big, bufs)|
    ensures Whole(Passes(unroll, size, big, bufs)[j].pack, size)
  {
    DivUnique(size, size, 1, 0);
  }

  lemma UnrollOk(unroll: nat, size: nat)
    requires unroll >= 1 && size in {1, 2, 4, 8}
    ensures unroll * (16 / size) / 2 >= 1
  {
    MulMono(1, unroll, 16 / size);
  }

  predicate Whole(x: int, size: nat)
    requires size >= 1
  {
    x % size == 0
  }

  lemma WholeSum(a: int, b: int, size: nat)
    requires size >= 1 && Whole(a, size) && Whole(b, size)
    ensures Whole(a + b, size)
  {
    MultipleOf(a, b, size);
  }

  lemma {:induction false} WholeElements(ps: seq<Shape>, total: nat, k: nat, size: nat)
    requires PassesOk(ps) && k <= |ps| && size >= 1 && forall j :: 0 <= j < k ==> Whole(ps[j].pack, size)
    ensures Whole(Behind(ps, total, k), size)
  {
    if k == 0 {
      DivUnique(0, size, 0, 0);
    } else {
      WholeElements(ps, total, k - 1, size);
      var b := Behind(ps, total, k - 1);
      assert Whole(ps[k - 1].pack, size);
      ConsumedIsWhole(ps[k - 1], total - b, size);
      assert Whole(Consumed(ps[k - 1], total - b), size);
      hide Consumed, Whole;
      WholeSum(b, Consumed(ps[k - 1], total - b), size);
    }
  }

  /** The number a thread goes by in pass `k`. */
  function Label(ps: seq<Shape>, total: nat, nThreads: nat, thread: nat, k: nat): (t: nat)
    requires PassesOk(ps) && k <= |ps| && nThreads % WARP_SIZE == 0 && thread < nThreads
    ensures t < nThreads
  {
    if k == 0 then thread
    else Renumbered(ps[k - 1], nThreads, Label(ps, total, nThreads, thread, k - 1), total - Behind(ps, total, k - 1))
  }

  lemma RotationInverse(warps: nat, hunks: nat, r: nat) returns (w: nat)
    requires r < warps
    ensures w < warps && Rotated(w, hunks, warps) == r
    ensures forall v: nat :: v < warps && Rotated(v, hunks, warps) == r ==> v == w
  {
    DivModFacts(r + hunks, warps);
    w := (r + hunks) % warps;
    var q := (r + hunks) / warps;
    assert w - hunks == -q * warps + r by { assert q * warps == -(-q * warps); }
    DivUnique(w - hunks, warps, -q, r);
    forall v: nat | v < warps && Rotated(v, hunks, warps) == r ensures v == w {
      DivModFacts(v - hunks, warps);
      var p := (v - hunks) / warps;
      assert r + hunks == -p * warps + v by { assert p * warps == -(-p * warps); }
      DivUnique(r + hunks, warps, -p, v);
    }
  }

  /** The renumbering after a pass is a permutation of the threads. */
  lemma RenumberingInverse(sh: Shape, nThreads: nat, ahead: nat, t: nat) returns (s: nat)
    requires ShapeOk(sh) && nThreads % WARP_SIZE == 0 && t < nThreads
    ensures s < nThreads && Renumbered(sh, nThreads, s, ahead) == t
    ensures forall v: nat :: v < nThreads && Renumbered(sh, nThreads, v, ahead) == t ==> v == s
  {
    hide Rotated, Hunks;
    var w := RotationInverse(nThreads / WARP_SIZE, Hunks(sh, ahead), t / WARP_SIZE);
    s := w * WARP_SIZE + t % WARP_SIZE;
    forall v: nat | v < nThreads && Renumbered(sh, nThreads, v, ahead) == t ensures v == s {
      assert Rotated(v / WARP_SIZE, Hunks(sh, ahead), nThreads / WARP_SIZE) == t / WARP_SIZE;
    }
  }

  /** In every pass each number belongs to exactly one thread. */
  lemma {:induction false} LabelInverse(ps: seq<Shape>, total: nat, nThreads: nat, k: nat, t: nat) returns (s: nat)
    requires PassesOk(ps) && k <= |ps| && nThreads % WARP_SIZE == 0 && t < nThreads
    ensures s < nThreads && Label(ps, total, nThreads, s, k) == t
    ensures forall v: nat :: v < nThreads && Label(ps, total, nThreads, v, k) == t ==> v == s
  {
    hide Renumbered, Behind;
    if k == 0 {
      s := t;
    } else {
      var t' := RenumberingInverse(ps[k - 1], nThreads, total - Behind(ps, total, k - 1), t);
      s := LabelInverse(ps, total, nThreads, k - 1, t');
    }
  }

  /** A thread handles byte `x`: in pass `k`, under the number it has there, in iteration `i`, as its u-th pack. */
  predicate Touches(ps: seq<Shape>, total: nat, nThreads: nat, thread: nat, k: nat, i: nat, u: nat, x: nat)
    requires PassesOk(ps) && nThreads % WARP_SIZE == 0 && thread < nThreads
  {
    && k < |ps| && Behind(ps, total, k) <= x
    && Handles(ps[k], total - Behind(ps, total, k), nThreads / WARP_SIZE, Label(ps, total, nThreads, thread, k), i, u, x - Behind(ps, total, k))
  }

  /** The pass that takes care of a byte. */
  lemma {:induction false} PassOf(ps: seq<Shape>, total: nat, x: nat, n: nat) returns (k: nat)
    requires PassesOk(ps) && n <= |ps| && x < Behind(ps, total, n)
    ensures k < n && Behind(ps, total, k) <= x < Behind(ps, total, k + 1)
  {
    if Behind(ps, total, n - 1) <= x { k := n - 1; } else { k := PassOf(ps, total, x, n - 1); }
  }

  /** Every byte is handled by exactly one thread, in exactly one pass, iteration and pack; bytes beyond the end by none. */
  lemma EveryByteOnce(ps: seq<Shape>, total: nat, nThreads: nat, x: nat) returns (thread: nat, k: nat, i: nat, u: nat)
    requires PassesOk(ps) && nThreads % WARP_SIZE == 0 && nThreads >= WARP_SIZE && Behind(ps, total, |ps|) == total && x < total
    ensures thread < nThreads && Touches(ps, total, nThreads, thread, k, i, u, x)
    ensures forall s: nat, k': nat, i': nat, u': nat ::
      s < nThreads && Touches(ps, total, nThreads, s, k', i', u', x) ==> s == thread && k' == k && i' == i && u' == u
  {
    hide Handles, Label, Consumed;
    k := PassOf(ps, total, x, |ps|);
    var b, warps := Behind(ps, total, k), nThreads / WARP_SIZE;
    var t;
    t, i, u := PassHandlesOnce(ps[k], total - b, warps, x - b);
    thread := LabelInverse(ps, total, nThreads, k, t);
    forall s: nat, k': nat, i': nat, u': nat | s < nThreads && Touches(ps, total, nThreads, s, k', i', u', x)
      ensures s == thread && k' == k && i' == i && u' == u
    {
      TouchesInPass(ps, total, nThreads, s, k', i', u', x);
      if k' < k { BehindMono(ps, total, k' + 1, k); } else if k < k' { BehindMono(ps, total, k + 1, k'); }
    }
  }

  lemma TouchesInPass(ps: seq<Shape>, total: nat, nThreads: nat, s: nat, k: nat, i: nat, u: nat, x: nat)
    requires PassesOk(ps) && nThreads % WARP_SIZE == 0 && s < nThreads && Touches(ps, total, nThreads, s, k, i, u, x)
    ensures Behind(ps, total, k) <= x < Behind(ps, total, k + 1)
  {
    hide Label;
    var b, t := Behind(ps, total, k), Label(ps, total, nThreads, s, k);
    TakesPartIff(ps[k], total - b, HunkAt(t / WARP_SIZE, nThreads / WARP_SIZE, i), u, t % WARP_SIZE, x - b);
  }

  /** reduceCopy for one thread: pass after pass, until nothing is left. */
  method ReduceCopyThread(ps: seq<Shape>, total: nat, nThreads: nat, thread: nat) returns (done: seq<seq<nat>>)
    requires PassesOk(ps) && nThreads % WARP_SIZE == 0 && thread < nThreads
    ensures |done| <= |ps| && (|done| == |ps| || Behind(ps, total, |done|) == total)
    ensures forall k :: 0 <= k < |done| ==> Did(ps, total, nThreads, thread, k, done[k])
  {
    hide Renumbered, Consumed, Iterates, Work, Did;
    done := [];
    var t, behind, ahead := thread, 0, total;
    for k := 0 to |ps|
      invariant |done| == k && behind == Behind(ps, total, k) && ahead == total - behind && t == Label(ps, total, nThreads, thread, k)
      invariant forall j :: 0 <= j < k ==> Did(ps, total, nThreads, thread, j, done[j])
    {
      var packs;
      ghost var n;
      packs, t, behind, ahead, n := ReduceCopyPacks(ps[k], nThreads, t, behind, ahead);
      DidBy(ps, total, nThreads, thread, k, packs, n);
      done := done + [packs];
      if ahead == 0 { return; }
    }
  }

  /** The packs a thread lists in a pass are those of its hunks, in order: entry i * unroll + u is its u-th pack of iteration i. */
  lemma {:induction false} WorkLists(sh: Shape, behind: nat, warp: nat, warps: nat, lane: nat, n: nat, i: nat, u: nat)
    requires ShapeOk(sh) && i < n && u < sh.unroll
    ensures |Work(sh, behind, warp, warps, lane, n)| == n * sh.unroll && 0 <= i * sh.unroll + u < n * sh.unroll
    ensures Work(sh, behind, warp, warps, lane, n)[i * sh.unroll + u] == behind + Start(sh, HunkAt(warp, warps, i), u, lane)
  {
    hide Start;
    MulNonNeg(i, sh.unroll);
    WorkLength(sh, behind, warp, warps, lane, n - 1);
    PacksList(sh, behind, HunkAt(warp, warps, n - 1), lane, sh.unroll, u);
    assert n * sh.unroll == (n - 1) * sh.unroll + sh.unroll;
    if i < n - 1 { WorkLists(sh, behind, warp, warps, lane, n - 1, i, u); }
  }

  lemma {:induction false} WorkLength(sh: Shape, behind: nat, warp: nat, warps: nat, lane: nat, n: nat)
    requires ShapeOk(sh)
    ensures |Work(sh, behind, warp, warps, lane, n)| == n * sh.unroll
  {
    if n > 0 {
      WorkLength(sh, behind, warp, warps, lane, n - 1);
      PacksList(sh, behind, HunkAt(warp, warps, n - 1), lane, sh.unroll, 0);
      assert n * sh.unroll == (n - 1) * sh.unroll + sh.unroll;
    }
  }

  lemma {:induction false} PacksList(sh: Shape, behind: nat, h: nat, lane: nat, count: nat, u: nat)
    requires ShapeOk(sh)
    ensures |Packs(sh, behind, h, lane, count)| == count
    ensures u < count ==> Packs(sh, behind, h, lane, count)[u] == behind + Start(sh, h, u, lane)
  {
    hide Start;
    if count > 0 { PacksList(sh, behind, h, lane, count - 1, u); }
  }

  /** What a thread does in pass `k`. */
  ghost predicate Did(ps: seq<Shape>, total: nat, nThreads: nat, thread: nat, k: nat, packs: seq<nat>)
    requires PassesOk(ps) && nThreads % WARP_SIZE == 0 && thread < nThreads
  {
    k < |ps| && exists n: nat :: DidIn(ps, total, nThreads, thread, k, packs, n)
  }

  ghost predicate DidIn(ps: seq<Shape>, total: nat, nThreads: nat, thread: nat, k: nat, packs: seq<nat>, n: nat)
    requires PassesOk(ps) && nThreads % WARP_SIZE == 0 && thread < nThreads && k < |ps|
  {
    var b, t := Behind(ps, total, k), Label(ps, total, nThreads, thread, k);
    && Iterates(ps[k], total - b, t / WARP_SIZE, nThreads / WARP_SIZE, t % WARP_SIZE, n)
    && packs == Work(ps[k], b, t / WARP_SIZE, nThreads / WARP_SIZE, t % WARP_SIZE, n)
  }

  lemma DidBy(ps: seq<Shape>, total: nat, nThreads: nat, thread: nat, k: nat, packs: seq<nat>, n: nat)
    requires PassesOk(ps) && nThreads % WARP_SIZE == 0 && thread < nThreads && k < |ps| && DidIn(ps, total, nThreads, thread, k, packs, n)
    ensures Did(ps, total, nThreads, thread, k, packs)
  {
  }

  /** For every alignment, element size and thread count, each byte of nElts elements is handled by exactly one thread in exactly one pass. */
  lemma ReduceCopyHandlesOnce(unroll: nat, size: nat, big: nat, bufs: Buffers, nThreads: nat, nElts: nat, x: nat)
    returns (thread: nat, k: nat, i: nat, u: nat)
    requires unroll >= 1 && size in {1, 2, 4, 8} && (big > size ==> big % size == 0)
    requires nThreads % WARP_SIZE == 0 && nThreads >= WARP_SIZE && x < nElts * size
    ensures PassesOk(Passes(unroll, size, big, bufs)) && thread < nThreads
    ensures var ps, total := Passes(unroll, size, big, bufs), nElts * size;
      && Touches(ps, total, nThreads, thread, k, i, u, x)
      && forall s: nat, k': nat, i': nat, u': nat ::
           s < nThreads && Touches(ps, total, nThreads, s, k', i', u', x) ==> s == thread && k' == k && i' == i && u' == u
  {
    hide Passes, Touches, Behind;
    NothingLeft(unroll, size, big, bufs, nElts);
    thread, k, i, u := EveryByteOnce(Passes(unroll, size, big, bufs), nElts * size, nThreads, x);
  }

  // ---------------------------------------------------------------- every access is aligned

  /** An address some lane of the warp has looked at, of elements of `size` bytes. */
  predicate Checked(bufs: Buffers, size: nat, a: nat)
    requires size >= 1
  {
    a % size == 0 && exists lane :: 0 <= lane < WARP_SIZE && ((lane < |bufs.srcs| && bufs.srcs[lane] == a) || (lane < |bufs.dsts| && bufs.dsts[lane] == a))
  }

  /** Big packs are used exactly if they hold more than an element and all pointers looked at are multiples of them. */
  lemma BigPacksIff(unroll: nat, size: nat, big: nat, bufs: Buffers)
    requires size >= 1
    ensures (exists k :: 0 <= k < |Passes(unroll, size, big, bufs)| && Passes(unroll, size, big, bufs)[k].pack != size) <==>
            big > size && (forall lane :: 0 <= lane < WARP_SIZE && lane < |bufs.srcs| ==> bufs.srcs[lane] % big == 0) &&
            (forall lane :: 0 <= lane < WARP_SIZE && lane < |bufs.dsts| ==> bufs.dsts[lane] % big == 0)
  {
    var ps := Passes(unroll, size, big, bufs);
    if big > size {
      AllMultiples(bufs, big);
      if Aligned(bufs, big) { assert ps[0].pack == big; }
    }
  }

  lemma AllMultiples(bufs: Buffers, big: nat)
    requires big >= 1
    ensures Aligned(bufs, big) <==>
            (forall lane :: 0 <= lane < WARP_SIZE && lane < |bufs.srcs| ==> bufs.srcs[lane] % big == 0) &&
            (forall lane :: 0 <= lane < WARP_SIZE && lane < |bufs.dsts| ==> bufs.dsts[lane] % big == 0)
  {
    if Aligned(bufs, big) {
      forall lane | 0 <= lane < WARP_SIZE
        ensures (lane < |bufs.srcs| ==> bufs.srcs[lane] % big == 0) && (lane < |bufs.dsts| ==> bufs.dsts[lane] % big == 0)
      {
        assert LaneAligned(bufs, big, lane);
      }
    }
  }

  /** Packs start at multiples of their size from where the pass starts. */
  lemma StartIsWhole(sh: Shape, h: nat, u: nat, lane: nat)
    requires ShapeOk(sh)
    ensures Whole(Start(sh, h, u, lane), sh.pack)
  {
    var m := sh.unroll * WARP_SIZE;
    assert h * HunkBytes(sh) == (h * m) * sh.pack;
    MulNonNeg(h, m);
    MultipleOf(h * m, 0, sh.pack);
    MultipleOf(u * WARP_SIZE + lane, 0, sh.pack);
    hide HunkBytes;
    WholeSum(h * HunkBytes(sh), (u * WARP_SIZE + lane) * sh.pack, sh.pack);
  }

  /** Earlier passes use packs of the same size or a multiple of it. */
  lemma EarlierPacks(unroll: nat, size: nat, big: nat, bufs: Buffers, j: nat, k: nat)
    requires size >= 1 && (big > size ==> big % size == 0) && j <= k < |Passes(unroll, size, big, bufs)|
    ensures var ps := Passes(unroll, size, big, bufs); ps[k].pack >= 1 && Whole(ps[j].pack, ps[k].pack)
  {
    DivUnique(size, size, 1, 0);
    if big >= 1 { DivUnique(big, big, 1, 0); }
  }

  /** A pass starts at a multiple of its pack size in every buffer that was looked at. */
  lemma BufferIsWhole(unroll: nat, size: nat, big: nat, bufs: Buffers, k: nat, a: nat)
    requires size >= 1 && k < |Passes(unroll, size, big, bufs)| && Checked(bufs, size, a)
    ensures var ps := Passes(unroll, size, big, bufs); ps[k].pack >= 1 && Whole(a, ps[k].pack)
  {
    var lane :| 0 <= lane < WARP_SIZE && ((lane < |bufs.srcs| && bufs.srcs[lane] == a) || (lane < |bufs.dsts| && bufs.dsts[lane] == a));
    if big > size && Aligned(bufs, big) { assert LaneAligned(bufs, big, lane); }
  }

  /** Every pack that any thread handles starts, in every buffer, at a multiple of its size. */
  lemma PackIsAligned(unroll: nat, size: nat, big: nat, bufs: Buffers, total: nat, k: nat, h: nat, u: nat, lane: nat, a: nat)
    requires unroll >= 1 && size in {1, 2, 4, 8} && (big > size ==> big % size == 0) && Checked(bufs, size, a)
    requires PassesOk(Passes(unroll, size, big, bufs)) && k < |Passes(unroll, size, big, bufs)|
    ensures var ps := Passes(unroll, size, big, bufs); (a + Behind(ps, total, k) + Start(ps[k], h, u, lane)) % ps[k].pack == 0
  {
    var ps := Passes(unroll, size, big, bufs);
    forall j | 0 <= j < k ensures Whole(ps[j].pack, ps[k].pack) { EarlierPacks(unroll, size, big, bufs, j, k); }
    BufferIsWhole(unroll, size, big, bufs, k, a);
    hide Passes, Start, Behind, Checked;
    WholeElements(ps, total, k, ps[k].pack);
    StartIsWhole(ps[k], h, u, lane);
    WholeSum(a, Behind(ps, total, k), ps[k].pack);
    WholeSum(a + Behind(ps, total, k), Start(ps[k], h, u, lane), ps[k].pack);
  }

  /** reduceCopy as a thread runs it: nothing without destinations; otherwise the vote, and the passes it leads to. */
  method ReduceCopyCall(unroll: nat, size: nat, big: nat, bufs: Buffers, nElts: nat, nThreads: nat, thread: nat) returns (done: seq<seq<nat>>)
    requires unroll >= 1 && size in {1, 2, 4, 8} && (big > size ==> big % size == 0)
    requires nThreads % WARP_SIZE == 0 && thread < nThreads
    ensures PassesOk(Passes(unroll, size, big, bufs))
    ensures bufs.dsts == [] ==> done == []
    ensures var ps, total := Passes(unroll, size, big, bufs), nElts * size;
      bufs.dsts != [] ==>
        && |done| <= |ps| && (|done| == |ps| || Behind(ps, total, |done|) == total)
        && (forall k :: 0 <= k < |done| ==> Did(ps, total, nThreads, thread, k, done[k]))
        && (forall k, j, a: nat :: 0 <= k < |done| && 0 <= j < |done[k]| && Checked(bufs, size, a) ==> (a + done[k][j]) % ps[k].pack == 0)
  {
    NothingLeft(unroll, size, big, bufs, nElts);
    if bufs.dsts == [] { return []; }
    var ps: seq<Shape> := [];
    if big > size {
      var aligned := VoteAligned(bufs, big);
      if aligned { ps := [Shape(unroll, big), Shape(1, big)]; }
    }
    ps := ps + [Shape(unroll * (16 / size) / 2, size), Shape(1, size)];
    assert ps == Passes(unroll, size, big, bufs);
    hide Passes, Behind, Checked, Did, Aligned;
    done := ReduceCopyThread(ps, nElts * size, nThreads, thread);
    forall k, j, a: nat | 0 <= k < |done| && 0 <= j < |done[k]| && Checked(bufs, size, a)
      ensures (a + done[k][j]) % ps[k].pack == 0
    {
      DidAligned(unroll, size, big, bufs, nElts * size, nThreads, thread, k, done[k], j, a);
    }
  }

  lemma DidAligned(unroll: nat, size: nat, big: nat, bufs: Buffers, total: nat, nThreads: nat, thread: nat, k: nat, packs: seq<nat>, j: nat, a: nat)
    requires unroll >= 1 && size in {1, 2, 4, 8} && (big > size ==> big % size == 0) && Checked(bufs, size, a)
    requires PassesOk(Passes(unroll, size, big, bufs)) && nThreads % WARP_SIZE == 0 && thread < nThreads && j < |packs|
    requires Did(Passes(unroll, size, big, bufs), total, nThreads, thread, k, packs)
    ensures (a + packs[j]) % Passes(unroll, size, big, bufs)[k].pack == 0
  {
    var ps := Passes(unroll, size, big, bufs);
    var n: nat :| DidIn(ps, total, nThreads, thread, k, packs, n);
    hide Passes, Checked, Iterates, Label, Behind, Work;
    var t, sh := Label(ps, total, nThreads, thread, k), ps[k];
    var warp, warps, lane := t / WARP_SIZE, nThreads / WARP_SIZE, t % WARP_SIZE;
    WorkLength(sh, Behind(ps, total, k), warp, warps, lane, n);
    var i, u := EntryOf(j, n, sh.unroll);
    WorkLists(sh, Behind(ps, total, k), warp, warps, lane, n, i, u);
    PackIsAligned(unroll, size, big, bufs, total, k, HunkAt(warp, warps, i), u, lane, a);
  }

  lemma EntryOf(j: nat, n: nat, unroll: nat) returns (i: nat, u: nat)
    requires unroll >= 1 && j < n * unroll
    ensures i < n && u < unroll && j == i * unroll + u
  {
    DivModFacts(j, unroll);
    DivNonNeg(j, unroll);
    i, u := j / unroll, j % unroll;
    if i >= n { MulMono(n, i, unroll); }
  }
}
