/**
 How one channel's share of an all-reduce is cut up: into loops of n chunks each
 (src/device/all_reduce.h), a shortened chunk for the tail chosen by the host
 (src/enqueue.cc), and slices of a chunk (src/device/prims_simple.h).
 */
module RingLayout {
  import opened Arith

  /**
   `n` ranks; `chunk` elements per chunk (chunkCount); the channel owns `work` elements
   (workCount) starting at `grid` (workOffset); a chunk moves in `slices` slices
   (SlicePerChunk) of at least `minSlice` elements (stepSize * StepPerSlice / 32);
   tail chunks are rounded up to `align` elements.
   */
  datatype Shape = Shape(n: nat, chunk: nat, align: nat, work: nat, grid: nat, slices: nat, minSlice: nat)
  {
    predicate Valid() {
      n >= 2 && chunk >= 1 && align >= 1 && slices >= 1
    }
  }

  /** loopCount: elements covered by one pass over all chunks. */
  function LoopCount(sh: Shape): (c: nat)
    requires sh.Valid()
    ensures c >= 1
  {
    MulMono(1, sh.n, sh.chunk);
    sh.n * sh.chunk
  }

  /** lastChunkCount as the host computes it for a ring all-reduce. */
  function LastChunk(sh: Shape): nat
    requires sh.Valid()
  {
    DivUp(DivUp(sh.work % LoopCount(sh), sh.n), sh.align) * sh.align
  }

  function NumLoops(sh: Shape): nat
    requires sh.Valid()
  {
    DivUp(sh.work, LoopCount(sh))
  }

  /** elemOffset at the start of loop `l`. */
  function LoopStart(sh: Shape, l: nat): nat
    requires sh.Valid()
  {
    l * LoopCount(sh)
  }

  /** chunkCount in force during loop `l`. */
  function ChunkLen(sh: Shape, l: nat): nat
    requires sh.Valid()
  {
    if sh.work - LoopStart(sh, l) < LoopCount(sh) then LastChunk(sh) else sh.chunk
  }

  /** nelem of chunk `c` in loop `l`, after genericOp has raised a negative count to zero. */
  function ChunkElems(sh: Shape, l: nat, c: nat): nat
    requires sh.Valid()
  {
    Max(0, Min(ChunkLen(sh, l), sh.work - LoopStart(sh, l) - c * ChunkLen(sh, l)))
  }

  /** Start of chunk `c` of loop `l`, relative to the channel's share. */
  function ChunkStart(sh: Shape, l: nat, c: nat): nat
    requires sh.Valid()
  {
    LoopStart(sh, l) + c * ChunkLen(sh, l)
  }

  /** sliceSize that genericOp starts from for a chunk of `nelem` elements. */
  function SliceSize(sh: Shape, nelem: nat): (z: nat)
    requires sh.Valid()
    ensures nelem > 0 ==> z > 0
    ensures nelem <= sh.slices * z
  {
    var q := DivUp(nelem, 16 * sh.slices);
    assert q * (16 * sh.slices) == sh.slices * (q * 16);
    MulMono(q * 16, Max(q * 16, sh.minSlice), sh.slices);
    Max(q * 16, sh.minSlice)
  }

  /** Offset and length of slice `s` within a chunk of `nelem` elements. */
  function SliceStart(sh: Shape, nelem: nat, s: nat): (o: nat)
    requires sh.Valid()
    ensures o <= nelem
  {
    Min(s * SliceSize(sh, nelem), nelem)
  }

  function SliceLen(sh: Shape, nelem: nat, s: nat): nat
    requires sh.Valid()
  {
    Min(SliceSize(sh, nelem), nelem - SliceStart(sh, nelem, s))
  }

  /** The slice loop of genericOp: offset and size of each slice, in order. */
  method GenericOpSlices(sh: Shape, count: int) returns (parts: seq<(nat, nat)>)
    requires sh.Valid()
    ensures var nelem := Max(0, count);
      && |parts| == sh.slices
      && (forall s :: 0 <= s < sh.slices ==> parts[s].1 == SliceLen(sh, nelem, s))
      && (forall s :: 0 <= s < sh.slices && parts[s].1 > 0 ==> parts[s].0 == SliceStart(sh, nelem, s))
  {
    var nelem: nat := if count < 0 then 0 else count;
    var sliceSize: nat := Max(DivUp(nelem, 16 * sh.slices) * 16, sh.minSlice);
    var slice, offset: nat := 0, 0;
    parts := [];
    // `sliceSize` is overwritten by the shrunk size, so it stays at its first value
    // until the chunk is used up and is of no effect afterwards.
    while slice < sh.slices
      invariant 0 <= slice <= sh.slices && |parts| == slice
      invariant offset == SliceStart(sh, nelem, slice)
      invariant offset < nelem ==> sliceSize == SliceSize(sh, nelem)
      invariant forall s :: 0 <= s < slice ==> parts[s] == (SliceStart(sh, nelem, s), SliceLen(sh, nelem, s))
    {
      assert (slice + 1) * SliceSize(sh, nelem) == slice * SliceSize(sh, nelem) + SliceSize(sh, nelem);
      sliceSize := if sliceSize < nelem - offset then sliceSize else nelem - offset;
      parts := parts + [(offset, sliceSize)];
      offset := offset + sliceSize;
      slice := slice + 1;
    }
  }

  /** Which loop, chunk and slice of the layout holds element `i` of the channel's share. */
  function LoopOf(sh: Shape, i: nat): nat
    requires sh.Valid()
  {
    i / LoopCount(sh)
  }

  function ChunkOf(sh: Shape, i: nat): nat
    requires sh.Valid()
  {
    var l := LoopOf(sh, i);
    DivModFacts(i, LoopCount(sh));
    if ChunkLen(sh, l) == 0 then 0 else (i - LoopStart(sh, l)) / ChunkLen(sh, l)
  }

  function SliceOf(sh: Shape, i: nat): nat
    requires sh.Valid()
  {
    var l, c := LoopOf(sh, i), ChunkOf(sh, i);
    var z := SliceSize(sh, ChunkElems(sh, l, c));
    var o := ChunkStart(sh, l, c);
    if z == 0 || i < o then 0 else (DivNonNeg(i - o, z); (i - o) / z)
  }

  /** Element `i` is moved by slice `s` of chunk `c` of loop `l`. */
  predicate InSlot(sh: Shape, l: nat, c: nat, s: nat, i: nat)
    requires sh.Valid()
  {
    var nelem := ChunkElems(sh, l, c);
    var lo := ChunkStart(sh, l, c) + SliceStart(sh, nelem, s);
    lo <= i < lo + SliceLen(sh, nelem, s)
  }

  /** The shortened chunks of a tail loop still reach the end of the channel's share. */
  lemma TailReachesEnd(sh: Shape, l: nat)
    requires sh.Valid() && LoopStart(sh, l) <= sh.work
    ensures sh.work - LoopStart(sh, l) < LoopCount(sh) ==> sh.work - LoopStart(sh, l) <= sh.n * ChunkLen(sh, l)
    ensures sh.work - LoopStart(sh, l) >= LoopCount(sh) ==> sh.n * ChunkLen(sh, l) == LoopCount(sh)
  {
    var rem := sh.work - LoopStart(sh, l);
    if rem < LoopCount(sh) {
      DivUnique(sh.work, LoopCount(sh), l, rem);
      var per := DivUp(rem, sh.n);
      assert per <= LastChunk(sh);
      MulMono(per, LastChunk(sh), sh.n);
    }
  }

  lemma LoopBounds(sh: Shape, l: nat, i: nat)
    requires sh.Valid()
    ensures LoopOf(sh, i) == l <==> LoopStart(sh, l) <= i < LoopStart(sh, l) + LoopCount(sh)
  {
    DivModFacts(i, LoopCount(sh));
    if LoopStart(sh, l) <= i < LoopStart(sh, l) + LoopCount(sh) {
      DivUnique(i, LoopCount(sh), l, i - LoopStart(sh, l));
    }
  }

  /** A slot stays within its chunk. */
  lemma SlotWithinChunk(sh: Shape, l: nat, c: nat, s: nat, i: nat)
    requires sh.Valid() && InSlot(sh, l, c, s, i)
    ensures ChunkStart(sh, l, c) <= i < ChunkStart(sh, l, c) + ChunkElems(sh, l, c)
  {
    var nelem := ChunkElems(sh, l, c);
    var o, len := SliceStart(sh, nelem, s), SliceLen(sh, nelem, s);
    assert o + len <= nelem;
  }

  /** A chunk that has elements stays within its loop and within the channel's share. */
  lemma ChunkWithinLoop(sh: Shape, l: nat, c: nat)
    requires sh.Valid() && c < sh.n && ChunkElems(sh, l, c) > 0
    ensures ChunkElems(sh, l, c) <= ChunkLen(sh, l)
    ensures ChunkStart(sh, l, c) + ChunkElems(sh, l, c) <= sh.work
    ensures ChunkStart(sh, l, c) + ChunkElems(sh, l, c) <= LoopStart(sh, l) + LoopCount(sh)
  {
    var len, rem := ChunkLen(sh, l), sh.work - LoopStart(sh, l);
    assert ChunkElems(sh, l, c) <= rem - c * len;
    if rem >= LoopCount(sh) {
      MulMono(c + 1, sh.n, len);
      assert (c + 1) * len == c * len + len;
    }
  }

  /** Where an element lies: its chunk has elements and its slice has a positive size. */
  lemma LocateChunk(sh: Shape, i: nat)
    requires sh.Valid() && i < sh.work
    ensures var l, c := LoopOf(sh, i), ChunkOf(sh, i);
      && l < NumLoops(sh) && c < sh.n
      && ChunkStart(sh, l, c) <= i < ChunkStart(sh, l, c) + ChunkElems(sh, l, c)
  {
    var l := LoopOf(sh, i);
    LoopBounds(sh, l, i);
    TailReachesEnd(sh, l);
    if NumLoops(sh) <= l {
      MulMono(NumLoops(sh), l, LoopCount(sh));
      assert false;
    }
    var len := ChunkLen(sh, l);
    var d := i - LoopStart(sh, l);
    DivModFacts(d, len);
    if sh.n <= d / len {
      MulMono(sh.n, d / len, len);
      assert false;
    }
  }

  /** Cells of width `z` cut from `nelem` elements: offset `d` lies in cell `s` exactly when s == d / z. */
  lemma CellOf(z: nat, nelem: nat, s: nat, d: nat)
    requires z > 0 && d < nelem
    ensures var o := Min(s * z, nelem);
      o <= d < o + Min(z, nelem - o) <==> s == d / z
  {
    DivModFacts(d, z);
    if s * z <= d < s * z + z {
      DivUnique(d, z, s, d - s * z);
    }
  }

  lemma CellInRange(z: nat, k: nat, nelem: nat, d: nat)
    requires z > 0 && d < nelem <= k * z
    ensures d / z < k
  {
    DivModFacts(d, z);
    if k <= d / z {
      MulMono(k, d / z, z);
      assert false;
    }
  }

  lemma InSlotByCell(sh: Shape, l: nat, c: nat, s: nat, i: nat)
    requires sh.Valid()
    requires ChunkStart(sh, l, c) <= i < ChunkStart(sh, l, c) + ChunkElems(sh, l, c)
    ensures var z := SliceSize(sh, ChunkElems(sh, l, c));
      z > 0 && (InSlot(sh, l, c, s, i) <==> s == (i - ChunkStart(sh, l, c)) / z)
  {
    var nelem := ChunkElems(sh, l, c);
    CellOf(SliceSize(sh, nelem), nelem, s, i - ChunkStart(sh, l, c));
  }

  lemma LocateSlice(sh: Shape, i: nat)
    requires sh.Valid() && i < sh.work
    ensures SliceOf(sh, i) < sh.slices
    ensures InSlot(sh, LoopOf(sh, i), ChunkOf(sh, i), SliceOf(sh, i), i)
  {
    LocateChunk(sh, i);
    var l, c := LoopOf(sh, i), ChunkOf(sh, i);
    var nelem := ChunkElems(sh, l, c);
    CellInRange(SliceSize(sh, nelem), sh.slices, nelem, i - ChunkStart(sh, l, c));
    InSlotByCell(sh, l, c, SliceOf(sh, i), i);
  }

  lemma SlotLocates(sh: Shape, l: nat, c: nat, s: nat, i: nat)
    requires sh.Valid() && c < sh.n && InSlot(sh, l, c, s, i)
    ensures i < sh.work && LoopOf(sh, i) == l && ChunkOf(sh, i) == c && SliceOf(sh, i) == s
  {
    SlotWithinChunk(sh, l, c, s, i);
    ChunkWithinLoop(sh, l, c);
    LoopBounds(sh, l, i);
    DivUnique(i - LoopStart(sh, l), ChunkLen(sh, l), c, i - ChunkStart(sh, l, c));
    InSlotByCell(sh, l, c, s, i);
  }

  /**
   The slots partition the channel's share: slot (l, c, s) holds element `i` exactly when
   (l, c, s) is where `i` is located, so no element is moved twice and none is missed.
   */
  lemma SlotsPartition(sh: Shape, l: nat, c: nat, s: nat, i: nat)
    requires sh.Valid() && c < sh.n
    ensures InSlot(sh, l, c, s, i) <==>
            i < sh.work && LoopOf(sh, i) == l && ChunkOf(sh, i) == c && SliceOf(sh, i) == s
  {
    if InSlot(sh, l, c, s, i) {
      SlotLocates(sh, l, c, s, i);
    } else if i < sh.work {
      LocateSlice(sh, i);
    }
  }

  // ---------------------------------------------------------------- alignment and room

  lemma DivUpFits(x: nat, y: nat, k: nat)
    requires y >= 1 && x <= k * y
    ensures DivUp(x, y) <= k
  {
    var d := DivUp(x, y);
    assert (d - 1) * y == d * y - y;
    if k < d { MulMono(k, d - 1, y); }
  }

  /** The shortened chunk of the tail is aligned, no longer than needed for that, and no longer than a whole one. */
  lemma LastChunkFits(sh: Shape)
    requires sh.Valid()
    ensures LastChunk(sh) % sh.align == 0 && LastChunk(sh) < DivUp(sh.work % LoopCount(sh), sh.n) + sh.align
    ensures sh.chunk % sh.align == 0 ==> LastChunk(sh) <= sh.chunk
  {
    var rem := sh.work % LoopCount(sh);
    DivModFacts(sh.work, LoopCount(sh));
    var per := DivUp(rem, sh.n);
    DivUnique(LastChunk(sh), sh.align, DivUp(per, sh.align), 0);
    if sh.chunk % sh.align == 0 {
      assert rem <= sh.chunk * sh.n;
      DivUpFits(rem, sh.n, sh.chunk);
      DivModFacts(sh.chunk, sh.align);
      DivUpFits(per, sh.align, sh.chunk / sh.align);
      MulMono(DivUp(per, sh.align), sh.chunk / sh.align, sh.align);
    }
  }

  /** Every chunk starts at a multiple of the alignment. */
  lemma ChunksAligned(sh: Shape, l: nat, c: nat)
    requires sh.Valid() && sh.chunk % sh.align == 0
    ensures ChunkStart(sh, l, c) % sh.align == 0
  {
    hide LastChunk;
    LastChunkFits(sh);
    MultipleTimes(sh.n, sh.chunk, sh.align);
    MultipleTimes(l, LoopCount(sh), sh.align);
    MultipleTimes(c, ChunkLen(sh, l), sh.align);
    MultiplePlus(LoopStart(sh, l), c * ChunkLen(sh, l), sh.align);
  }

  /** A slice with elements starts at a multiple of 16 within its chunk. */
  lemma SlicesAligned(sh: Shape, nelem: nat, s: nat)
    requires sh.Valid() && sh.minSlice % 16 == 0 && SliceLen(sh, nelem, s) > 0
    ensures SliceStart(sh, nelem, s) % 16 == 0
  {
    var z := SliceSize(sh, nelem);
    assert z % 16 == 0;
    MultipleTimes(s, z, 16);
  }

  /** No slice is longer than its part of the FIFO, if a whole chunk is not longer than all of these parts. */
  lemma SliceFitsSlot(sh: Shape, l: nat, c: nat, s: nat, slot: nat)
    requires sh.Valid() && sh.chunk % sh.align == 0 && slot % 16 == 0 && sh.minSlice <= slot && sh.chunk <= sh.slices * slot
    ensures ChunkElems(sh, l, c) <= sh.chunk && SliceLen(sh, ChunkElems(sh, l, c), s) <= slot
  {
    hide LastChunk, LoopCount, LoopStart;
    LastChunkFits(sh);
    var nelem := ChunkElems(sh, l, c);
    DivModFacts(slot, 16);
    assert sh.slices * slot == slot / 16 * (16 * sh.slices);
    DivUpFits(nelem, 16 * sh.slices, slot / 16);
  }
}
