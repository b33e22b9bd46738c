/**
 The program of one rank of the ring all-reduce (src/device/all_reduce.h, runRing): which
 primitive it calls when, and on which chunk.
 */
module RingProgram {
  import opened Arith
  import opened RingLayout

  /** The primitives runRing calls. */
  datatype Kind = Send | RecvReduceSend | RecvReduceCopySend | RecvCopySend | Recv
  {
    predicate Receives() { !Send? }
    predicate Sends() { !Recv? }
    /** Reads the user's input buffer. */
    predicate Reads() { Send? || RecvReduceSend? || RecvReduceCopySend? }
    /** Writes the user's output buffer. */
    predicate Stores() { !Send? && !RecvReduceSend? }
  }

  /** A primitive call with the offset and count runRing passes; the count may be negative. */
  datatype Call = Call(kind: Kind, offset: nat, count: int)

  function Phases(n: nat): nat
    requires n >= 2
  {
    2 * n - 1
  }

  /** Which primitive is the p-th of a loop. */
  function KindAt(n: nat, p: nat): Kind
    requires n >= 2 && p < Phases(n)
  {
    if p == 0 then Send
    else if p < n - 1 then RecvReduceSend
    else if p == n - 1 then RecvReduceCopySend
    else if p < 2 * n - 2 then RecvCopySend
    else Recv
  }

  /** Which chunk the p-th primitive of a loop works on, for all five parts of the loop alike. */
  function ChunkAt(n: nat, r: nat, p: nat): (c: nat)
    requires n >= 2 && r < n && p < Phases(n)
    ensures c < n
  {
    (r + 2 * n - (p + 1)) % n
  }

  function CallAt(sh: Shape, r: nat, l: nat, p: nat): Call
    requires sh.Valid() && r < sh.n && p < Phases(sh.n)
  {
    var c := ChunkAt(sh.n, r, p);
    Call(KindAt(sh.n, p), sh.grid + ChunkStart(sh, l, c),
         Min(ChunkLen(sh, l), sh.work - LoopStart(sh, l) - c * ChunkLen(sh, l)))
  }

  function LoopCalls(sh: Shape, r: nat, l: nat, count: nat): (cs: seq<Call>)
    requires sh.Valid() && r < sh.n && count <= Phases(sh.n)
    ensures |cs| == count
  {
    seq(count, p requires 0 <= p < count => CallAt(sh, r, l, p))
  }

  function RingCalls(sh: Shape, r: nat, loops: nat): seq<Call>
    requires sh.Valid() && r < sh.n
  {
    if loops == 0 then []
    else RingCalls(sh, r, loops - 1) + LoopCalls(sh, r, loops - 1, Phases(sh.n))
  }

  function ModRanks(n: nat, r: nat): nat {
    if r >= n then r - n else r
  }

  /** modRanks picks the chunk that the uniform formula names, in every part of the loop. */
  lemma ModRanksIsChunkAt(n: nat, r: nat, p: nat)
    requires n >= 2 && r < n && p < Phases(n)
    ensures p < n - 1 ==> ChunkAt(n, r, p) == ModRanks(n, r + n - (p + 1))
    ensures p == n - 1 ==> ChunkAt(n, r, p) == r
    ensures n - 1 < p < 2 * n - 2 ==> ChunkAt(n, r, p) == ModRanks(n, r + n - (p - (n - 1)))
    ensures p == 2 * n - 2 ==> ChunkAt(n, r, p) == ModRanks(n, r + 1)
  {
    var x := r + 2 * n - (p + 1);
    if x < n {
      DivUnique(x, n, 0, x);
    } else if x < 2 * n {
      DivUnique(x, n, 1, x - n);
    } else {
      DivUnique(x, n, 2, x - 2 * n);
    }
  }

  /** Computes offset and count for `chunk` and issues one primitive, the p-th of loop `l`. */
  method Issue(sh: Shape, ringIx: nat, kind: Kind, chunk: nat, elemOffset: nat, chunkCount: nat, calls: seq<Call>,
               ghost l: nat, ghost p: nat) returns (calls': seq<Call>)
    requires sh.Valid() && ringIx < sh.n && p < Phases(sh.n)
    requires elemOffset == LoopStart(sh, l) && chunkCount == ChunkLen(sh, l)
    requires kind == KindAt(sh.n, p) && chunk == ChunkAt(sh.n, ringIx, p)
    requires calls == LoopCalls(sh, ringIx, l, p)
    ensures calls' == LoopCalls(sh, ringIx, l, p + 1)
  {
    var remCount := sh.work - elemOffset;
    var chunkOffset := chunk * chunkCount;
    MulNonNeg(chunk, chunkCount);
    var offset := sh.grid + elemOffset + chunkOffset;
    var nelem := Min(chunkCount, remCount - chunkOffset);
    calls' := calls + [Call(kind, offset, nelem)];
    LoopCallsStep(sh, ringIx, l, p);
  }

  lemma LoopCallsStep(sh: Shape, r: nat, l: nat, p: nat)
    requires sh.Valid() && r < sh.n && p < Phases(sh.n)
    ensures LoopCalls(sh, r, l, p + 1) == LoopCalls(sh, r, l, p) + [CallAt(sh, r, l, p)]
  {
  }

  /** One iteration of runRing's outer loop. */
  method RunLoop(sh: Shape, ringIx: nat, elemOffset: nat, chunkCount: nat, ghost l: nat) returns (calls: seq<Call>)
    requires sh.Valid() && ringIx < sh.n
    requires elemOffset == LoopStart(sh, l) && chunkCount == ChunkLen(sh, l)
    ensures calls == LoopCalls(sh, ringIx, l, Phases(sh.n))
  {
    var nranks := sh.n;

    ModRanksIsChunkAt(nranks, ringIx, 0);
    calls := Issue(sh, ringIx, Send, ModRanks(nranks, ringIx + nranks - 1), elemOffset, chunkCount, [], l, 0);

    var j := 2;
    while j < nranks
      invariant 2 <= j <= nranks
      invariant calls == LoopCalls(sh, ringIx, l, j - 1)
    {
      ModRanksIsChunkAt(nranks, ringIx, j - 1);
      calls := Issue(sh, ringIx, RecvReduceSend, ModRanks(nranks, ringIx + nranks - j), elemOffset, chunkCount, calls, l, j - 1);
      j := j + 1;
    }

    ModRanksIsChunkAt(nranks, ringIx, nranks - 1);
    calls := Issue(sh, ringIx, RecvReduceCopySend, ringIx, elemOffset, chunkCount, calls, l, nranks - 1);

    j := 1;
    while j < nranks - 1
      invariant 1 <= j <= nranks - 1
      invariant calls == LoopCalls(sh, ringIx, l, nranks - 1 + j)
    {
      ModRanksIsChunkAt(nranks, ringIx, nranks - 1 + j);
      calls := Issue(sh, ringIx, RecvCopySend, ModRanks(nranks, ringIx + nranks - j), elemOffset, chunkCount, calls, l, nranks - 1 + j);
      j := j + 1;
    }

    ModRanksIsChunkAt(nranks, ringIx, 2 * nranks - 2);
    calls := Issue(sh, ringIx, Recv, ModRanks(nranks, ringIx + 1), elemOffset, chunkCount, calls, l, 2 * nranks - 2);
  }

  /** runRing: the primitive calls one rank makes, in order. */
  method RunRing(sh: Shape, ringIx: nat) returns (calls: seq<Call>)
    requires sh.Valid() && ringIx < sh.n
    ensures calls == RingCalls(sh, ringIx, NumLoops(sh))
  {
    var chunkCount := sh.chunk;
    var loopCount := LoopCount(sh);
    calls := [];
    var elemOffset := 0;
    ghost var l: nat := 0;
    while elemOffset < sh.work
      invariant elemOffset == LoopStart(sh, l)
      invariant l <= NumLoops(sh) && (l == NumLoops(sh) <==> elemOffset >= sh.work)
      invariant elemOffset < sh.work ==> chunkCount == sh.chunk
      invariant calls == RingCalls(sh, ringIx, l)
      decreases sh.work - elemOffset
    {
      if sh.work - elemOffset < loopCount { chunkCount := LastChunk(sh); }
      var once := RunLoop(sh, ringIx, elemOffset, chunkCount, l);
      calls := calls + once;
      LoopsAdvance(sh, l);
      elemOffset := elemOffset + loopCount;
      l := l + 1;
    }
  }

  lemma LoopsAdvance(sh: Shape, l: nat)
    requires sh.Valid() && LoopStart(sh, l) < sh.work
    ensures LoopStart(sh, l + 1) == LoopStart(sh, l) + LoopCount(sh)
    ensures l + 1 <= NumLoops(sh)
    ensures l + 1 == NumLoops(sh) <==> LoopStart(sh, l + 1) >= sh.work
  {
    var c, k := LoopCount(sh), NumLoops(sh);
    if k <= l {
      MulMono(k, l, c);
      assert false;
    }
    if l + 1 < k {
      MulMono(l + 2, k, c);
      assert (l + 2) * c == (l + 1) * c + c;
    }
  }
}
