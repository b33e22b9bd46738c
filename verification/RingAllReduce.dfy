/** The ring all-reduce end to end: layout, program, interleaving and reduction put together. */
module RingAllReduce {
  import opened Arith
  import opened RingLayout
  import opened RingProgram
  import opened RingMachine
  import opened RingCorrectness
  import opened RingProgress

  // ---------------------------------------------------------------- the reduction

  ghost predicate Associative<T(!new)>(f: (T, T) -> T) {
    forall x, y, z :: f(f(x, y), z) == f(x, f(y, z))
  }

  ghost predicate Commutative<T(!new)>(f: (T, T) -> T) {
    forall x, y :: f(x, y) == f(y, x)
  }

  lemma Assoc<T(!new)>(f: (T, T) -> T, x: T, y: T, z: T)
    requires Associative(f)
    ensures f(f(x, y), z) == f(x, f(y, z))
  {
  }

  lemma Comm<T(!new)>(f: (T, T) -> T, x: T, y: T)
    requires Commutative(f)
    ensures f(x, y) == f(y, x)
  {
  }

  /** Reduction of the pre-processed inputs of ranks a .. b - 1 in rank order. */
  function Reduce<T>(env: Env<T>, a: nat, b: nat, i: nat): T
    requires a < b <= env.lay.n == |env.input|
    requires forall r :: 0 <= r < env.lay.n ==> i < |env.input[r]|
    decreases b
  {
    var last := env.pre(b - 1, env.input[b - 1][i]);
    if b == a + 1 then last else env.reduce(Reduce(env, a, b - 1, i), last)
  }

  lemma {:induction false} ReduceJoin<T(!new)>(env: Env<T>, a: nat, m: nat, b: nat, i: nat)
    requires a < m < b <= env.lay.n == |env.input|
    requires forall r :: 0 <= r < env.lay.n ==> i < |env.input[r]|
    requires Associative(env.reduce)
    ensures env.reduce(Reduce(env, a, m, i), Reduce(env, m, b, i)) == Reduce(env, a, b, i)
    decreases b
  {
    hide Associative;
    if m + 1 < b {
      ReduceJoin(env, a, m, b - 1, i);
      Assoc(env.reduce, Reduce(env, a, m, i), Reduce(env, m, b - 1, i), env.pre(b - 1, env.input[b - 1][i]));
    }
  }

  /** What the chain of ranks has built up after p hops, put back in rank order. */
  lemma {:induction false} PartialIsReduce<T(!new)>(env: Env<T>, r: nat, p: nat, i: nat)
    requires r < env.lay.n == |env.input| && p < env.lay.n
    requires forall r :: 0 <= r < env.lay.n ==> i < |env.input[r]|
    requires Associative(env.reduce) && Commutative(env.reduce)
    ensures Partial(env, r, p, i) ==
            if p <= r then Reduce(env, r - p, r + 1, i)
            else env.reduce(Reduce(env, 0, r + 1, i), Reduce(env, env.lay.n - (p - r), env.lay.n, i))
    decreases p
  {
    hide Associative, Commutative;
    var n, own := env.lay.n, env.pre(r, env.input[r][i]);
    if p > 0 {
      PartialIsReduce(env, Prev(n, r), p - 1, i);
      if p <= r {
        Comm(env.reduce, own, Reduce(env, r - p, r, i));
      } else if r > 0 {
        Assoc(env.reduce, own, Reduce(env, 0, r, i), Reduce(env, n - (p - r), n, i));
        Comm(env.reduce, own, Reduce(env, 0, r, i));
      }
    }
  }

  /** The value every rank ends up with is the reduction over all ranks, whichever chunk it is in. */
  lemma FinalIsReduce<T(!new)>(env: Env<T>, c: nat, i: nat)
    requires c < env.lay.n == |env.input|
    requires forall r :: 0 <= r < env.lay.n ==> i < |env.input[r]|
    requires Associative(env.reduce) && Commutative(env.reduce)
    ensures Final(env, c, i) == env.post(Reduce(env, 0, env.lay.n, i))
  {
    hide Associative, Commutative;
    PartialIsReduce(env, c, env.lay.n - 1, i);
    if c + 1 < env.lay.n {
      ReduceJoin(env, 0, c + 1, env.lay.n, i);
    }
  }

  // ---------------------------------------------------------------- the layout of one channel

  function SlotStartOf(sh: Shape, l: nat, c: nat, s: nat): nat
    requires sh.Valid()
  {
    sh.grid + ChunkStart(sh, l, c) + SliceStart(sh, ChunkElems(sh, l, c), s)
  }

  function SlotLengthOf(sh: Shape, l: nat, c: nat, s: nat): nat
    requires sh.Valid()
  {
    SliceLen(sh, ChunkElems(sh, l, c), s)
  }

  function HomeOf(sh: Shape, i: nat): (nat, nat, nat)
    requires sh.Valid()
  {
    if i < sh.grid then (0, 0, 0) else (LoopOf(sh, i - sh.grid), ChunkOf(sh, i - sh.grid), SliceOf(sh, i - sh.grid))
  }

  /** The slots the program and genericOp's slice loop work through. */
  function LayoutOf(sh: Shape): Layout
    requires sh.Valid()
  {
    Layout(sh.n, NumLoops(sh), sh.slices, sh.grid, sh.work,
           (l, c, s) => SlotStartOf(sh, l, c, s), (l, c, s) => SlotLengthOf(sh, l, c, s), i => HomeOf(sh, i))
  }

  lemma SlotIsInSlot(sh: Shape, l: nat, c: nat, s: nat, i: nat)
    requires sh.Valid() && c < sh.n
    ensures SlotStartOf(sh, l, c, s) <= i < SlotStartOf(sh, l, c, s) + SlotLengthOf(sh, l, c, s) <==>
            sh.grid <= i < sh.grid + sh.work && HomeOf(sh, i) == (l, c, s)
  {
    if sh.grid <= i {
      SlotsPartition(sh, l, c, s, i - sh.grid);
    }
  }

  lemma LayoutIsValid(sh: Shape)
    requires sh.Valid()
    ensures LayoutOf(sh).Valid()
  {
    hide SlotStartOf, SlotLengthOf, HomeOf, LoopOf, ChunkOf, SliceOf, NumLoops;
    var lay := LayoutOf(sh);
    forall l: nat, c: nat, s: nat, i: nat | c < sh.n
      ensures lay.start(l, c, s) <= i < lay.start(l, c, s) + lay.length(l, c, s) <==>
              sh.grid <= i < sh.grid + sh.work && lay.home(i) == (l, c, s)
    {
      SlotIsInSlot(sh, l, c, s, i);
    }
    forall l: nat, c: nat, s: nat | c < sh.n && lay.length(l, c, s) > 0
      ensures sh.grid <= lay.start(l, c, s) && lay.start(l, c, s) + lay.length(l, c, s) <= sh.grid + sh.work
    {
      SlotIsInSlot(sh, l, c, s, lay.start(l, c, s));
      SlotIsInSlot(sh, l, c, s, lay.start(l, c, s) + lay.length(l, c, s) - 1);
    }
    forall i: nat | sh.grid <= i < sh.grid + sh.work
      ensures var (l, c, s) := lay.home(i);
        l < lay.loops && c < sh.n && s < sh.slices && lay.start(l, c, s) <= i < lay.start(l, c, s) + lay.length(l, c, s)
    {
      HomeInRange(sh, i);
      SlotIsInSlot(sh, lay.home(i).0, lay.home(i).1, lay.home(i).2, i);
    }
  }

  lemma HomeInRange(sh: Shape, i: nat)
    requires sh.Valid() && sh.grid <= i < sh.grid + sh.work
    ensures HomeOf(sh, i).0 < NumLoops(sh) && HomeOf(sh, i).1 < sh.n && HomeOf(sh, i).2 < sh.slices
  {
    LocateChunk(sh, i - sh.grid);
    LocateSlice(sh, i - sh.grid);
  }

  lemma {:induction false} CallsInOrder(sh: Shape, r: nat, loops: nat, l: nat, p: nat)
    requires sh.Valid() && r < sh.n && l < loops && p < Phases(sh.n)
    ensures 0 <= l * Phases(sh.n) + p < |RingCalls(sh, r, loops)|
    ensures RingCalls(sh, r, loops)[l * Phases(sh.n) + p] == CallAt(sh, r, l, p)
  {
    hide CallAt;
    var m := Phases(sh.n);
    assert loops * m == (loops - 1) * m + m;
    MulNonNeg(l, m);
    RingCallsLength(sh, r, loops - 1);
    if l < loops - 1 {
      CallsInOrder(sh, r, loops - 1, l, p);
    }
  }

  /**
   What the machine moves at a position is what runRing and genericOp ask for: the primitive, offset
   and count are those of the call issued there, and the slot is the slice of that call's range.
   */
  lemma MachineRunsTheCalls(sh: Shape, r: nat, q: Pos)
    requires sh.Valid() && r < sh.n && q.phase < Phases(sh.n) && q.loop < NumLoops(sh)
    ensures 0 <= q.loop * Phases(sh.n) + q.phase < |RingCalls(sh, r, NumLoops(sh))|
    ensures var call := RingCalls(sh, r, NumLoops(sh))[q.loop * Phases(sh.n) + q.phase];
      && call.kind == KindAt(sh.n, q.phase)
      && SlotStart(LayoutOf(sh), r, q) == call.offset + SliceStart(sh, Max(0, call.count), q.slice)
      && SlotLength(LayoutOf(sh), r, q) == SliceLen(sh, Max(0, call.count), q.slice)
  {
    hide SliceStart, SliceLen, NumLoops, ChunkLen;
    CallsInOrder(sh, r, NumLoops(sh), q.loop, q.phase);
  }

  lemma {:induction false} RingCallsLength(sh: Shape, r: nat, loops: nat)
    requires sh.Valid() && r < sh.n
    ensures |RingCalls(sh, r, loops)| == loops * Phases(sh.n)
  {
    if loops > 0 {
      RingCallsLength(sh, r, loops - 1);
      assert loops * Phases(sh.n) == (loops - 1) * Phases(sh.n) + Phases(sh.n);
    }
  }

  // ---------------------------------------------------------------- what a run does

  /** How often rank `r` has sent a slice in the first `k` moves. */
  ghost function SendsBy<T>(env: Env<T>, trace: seq<State<T>>, who: seq<nat>, r: nat, k: nat): nat
    requires env.Valid() && Run(env, trace, who) && r < env.lay.n && k <= |who|
  {
    if k == 0 then 0
    else SendsBy(env, trace, who, r, k - 1) +
         (assert Moves(env, trace[k - 1], who[k - 1], trace[k]);
          if who[k - 1] == r && KindOf(env, trace[k - 1], r).Sends() then 1 else 0)
  }

  /** How often rank `r` has received a slice in the first `k` moves. */
  ghost function RecvsBy<T>(env: Env<T>, trace: seq<State<T>>, who: seq<nat>, r: nat, k: nat): nat
    requires env.Valid() && Run(env, trace, who) && r < env.lay.n && k <= |who|
  {
    if k == 0 then 0
    else RecvsBy(env, trace, who, r, k - 1) +
         (assert Moves(env, trace[k - 1], who[k - 1], trace[k]);
          if who[k - 1] == r && KindOf(env, trace[k - 1], r).Receives() then 1 else 0)
  }

  lemma {:induction false} TransfersCounted<T>(env: Env<T>, trace: seq<State<T>>, who: seq<nat>, r: nat, k: nat)
    requires env.Valid() && Run(env, trace, who) && r < env.lay.n && k <= |who|
    ensures WellFormed(env, trace[k])
    ensures SendsBy(env, trace, who, r, k) == SendIx(env.lay, trace[k].pos[r])
    ensures RecvsBy(env, trace, who, r, k) == RecvIx(env.lay, trace[k].pos[r])
  {
    hide Moves, FifoOk, BufOk;
    if k == 0 {
      RunInv(env, trace, who, 0);
    } else {
      hide SendIx, RecvIx;
      TransfersCounted(env, trace, who, r, k - 1);
      RunInv(env, trace, who, k);
      CountMove(env, trace[k - 1], who[k - 1], trace[k], r);
    }
  }

  lemma CountMove<T>(env: Env<T>, st: State<T>, w: nat, st': State<T>, r: nat)
    requires env.Valid() && Moves(env, st, w, st') && r < env.lay.n
    ensures var kind := KindOf(env, st, r);
      && SendIx(env.lay, st'.pos[r]) == SendIx(env.lay, st.pos[r]) + (if w == r && kind.Sends() then 1 else 0)
      && RecvIx(env.lay, st'.pos[r]) == RecvIx(env.lay, st.pos[r]) + (if w == r && kind.Receives() then 1 else 0)
  {
    hide SendIx, RecvIx;
    IxSucc(env.lay, st.pos[w]);
  }

  /** computeCollSteps for a ring all-reduce: the number of FIFO steps the host tells the proxy to expect. */
  function CollSteps(sh: Shape, chunkSteps: nat): nat
    requires sh.Valid()
  {
    DivUp(sh.work, sh.n * sh.chunk) * (sh.n - 1) * 2 * chunkSteps
  }

  lemma StepsByLoops(sh: Shape, chunkSteps: nat)
    requires sh.Valid()
    ensures CollSteps(sh, chunkSteps) == NumLoops(sh) * (sh.n - 1) * 2 * chunkSteps
  {
  }

  lemma StepArithmetic(loops: nat, n: nat, k: nat, w: nat)
    requires n >= 2
    ensures loops * (2 * n - 2) * k * w == loops * (n - 1) * 2 * (k * w)
  {
    assert loops * (2 * n - 2) == loops * (n - 1) * 2;
  }

  lemma DoneIx(sh: Shape, q: Pos)
    requires sh.Valid() && ValidPos(LayoutOf(sh), q) && Done(LayoutOf(sh), q)
    ensures SendIx(LayoutOf(sh), q) == RecvIx(LayoutOf(sh), q) == NumLoops(sh) * (2 * sh.n - 2) * sh.slices
  {
  }

  /** The host's count is the number of steps the kernel makes on each connection, in either direction. */
  lemma HostStepCount<T>(sh: Shape, stepPerSlice: nat, env: Env<T>, trace: seq<State<T>>, who: seq<nat>, r: nat)
    requires sh.Valid() && env.Valid() && env.lay == LayoutOf(sh) && r < sh.n
    requires Run(env, trace, who) && WellFormed(env, trace[|who|]) && Done(env.lay, trace[|who|].pos[r])
    ensures SendsBy(env, trace, who, r, |who|) * stepPerSlice == CollSteps(sh, sh.slices * stepPerSlice)
    ensures RecvsBy(env, trace, who, r, |who|) * stepPerSlice == CollSteps(sh, sh.slices * stepPerSlice)
  {
    hide Moves, NumLoops, SendsBy, RecvsBy;
    TransfersCounted(env, trace, who, r, |who|);
    StepArithmetic(NumLoops(sh), sh.n, sh.slices, stepPerSlice);
    DoneIx(sh, trace[|who|].pos[r]);
    StepsByLoops(sh, sh.slices * stepPerSlice);
  }

  /**
   Rank `r` is finished, nothing is left in its FIFO, and its buffer holds the reduction over all
   ranks, post-processed once, on the channel's share, and its old contents elsewhere.
   */
  ghost predicate Reduced<T>(sh: Shape, env: Env<T>, st: State<T>, r: nat)
    requires sh.Valid() && env.Valid() && env.lay == LayoutOf(sh) && WellFormed(env, st) && r < sh.n
  {
    && Done(env.lay, st.pos[r])
    && st.fifos[r] == []
    && |st.bufs[r]| == |env.output[r]|
    && forall i :: 0 <= i < |st.bufs[r]| ==>
         st.bufs[r][i] ==
           if sh.grid <= i < sh.grid + sh.work then env.post(Reduce(env, 0, sh.n, i)) else env.output[r][i]
  }

  lemma ReducedAtEnd<T(!new)>(sh: Shape, env: Env<T>, st: State<T>, r: nat)
    requires sh.Valid() && env.Valid() && env.lay == LayoutOf(sh) && Inv(env, st) && r < sh.n
    requires forall k :: 0 <= k < sh.n ==> Done(env.lay, st.pos[k])
    requires Associative(env.reduce) && Commutative(env.reduce)
    ensures Reduced(sh, env, st, r)
  {
    hide Associative, Commutative, Reduce, FifoOk, BufOk, Final;
    DrainedAtEnd(env, st, r);
    StoredAtEnd(env, st, r, 0);
    forall i | 0 <= i < |st.bufs[r]|
      ensures st.bufs[r][i] ==
              if sh.grid <= i < sh.grid + sh.work then env.post(Reduce(env, 0, sh.n, i)) else env.output[r][i]
    {
      StoredAtEnd(env, st, r, i);
      if sh.grid <= i < sh.grid + sh.work {
        FinalIsReduce(env, env.lay.home(i).1, i);
      }
    }
  }

  /**
   Every maximal run of the ring all-reduce, whatever the interleaving, reduces on every rank. The
   operation may be in place, the share may start anywhere, be empty, or not divide into chunks.
   */
  lemma EveryMaximalRunReduces<T(!new)>(sh: Shape, env: Env<T>, trace: seq<State<T>>, who: seq<nat>)
    requires sh.Valid() && env.Valid() && env.lay == LayoutOf(sh) && env.cap > sh.slices
    requires Run(env, trace, who) && WellFormed(env, trace[|who|]) && Stuck(env, trace[|who|])
    requires Associative(env.reduce) && Commutative(env.reduce)
    ensures forall r :: 0 <= r < sh.n ==> Reduced(sh, env, trace[|who|], r)
  {
    hide Associative, Commutative, Moves, Stuck, FifoOk, BufOk, Reduced;
    RunInv(env, trace, who, |who|);
    NotStuck(env, trace[|who|]);
    forall r | 0 <= r < sh.n
      ensures Reduced(sh, env, trace[|who|], r)
    {
      ReducedAtEnd(sh, env, trace[|who|], r);
    }
  }

  lemma DrainedAtEnd<T>(env: Env<T>, st: State<T>, r: nat)
    requires env.Valid() && Inv(env, st) && r < env.lay.n
    requires forall r :: 0 <= r < env.lay.n ==> Done(env.lay, st.pos[r])
    ensures st.fifos[r] == []
  {
    assert FifoOk(env, st, r);
  }

  /** Without any law for the reduction: all ranks still end with identical values. */
  lemma StoredAtEnd<T>(env: Env<T>, st: State<T>, r: nat, i: nat)
    requires env.Valid() && Inv(env, st) && r < env.lay.n && Done(env.lay, st.pos[r])
    ensures |st.bufs[r]| == |env.output[r]|
    ensures i < |st.bufs[r]| ==>
              st.bufs[r][i] ==
                if env.lay.base <= i < env.lay.base + env.lay.size then Final(env, env.lay.home(i).1, i) else env.output[r][i]
  {
    assert BufOk(env, st, r);
  }

  /** The run ends in a state where no rank can move although rank `r` has not finished. */
  ghost predicate Deadlocks<T>(env: Env<T>, trace: seq<State<T>>, who: seq<nat>, r: nat)
    requires env.Valid()
  {
    && Run(env, trace, who) && WellFormed(env, trace[|who|]) && Stuck(env, trace[|who|])
    && r < env.lay.n && !Done(env.lay, trace[|who|].pos[r])
  }

  /**
   Progress is exactly a matter of room: some run deadlocks if and only if there is work to do and
   a FIFO holds no more slices than one chunk has.
   */
  lemma DeadlockIff<T(!new)>(sh: Shape, env: Env<T>)
    requires sh.Valid() && env.Valid() && env.lay == LayoutOf(sh)
    ensures (exists trace: seq<State<T>>, who: seq<nat>, r: nat :: Deadlocks(env, trace, who, r)) <==>
            sh.work > 0 && env.cap <= sh.slices
  {
    hide Moves, Stuck;
    forall trace: seq<State<T>>, who: seq<nat>, r: nat | Deadlocks(env, trace, who, r)
      ensures sh.work > 0 && env.cap <= sh.slices
    {
      RunInv(env, trace, who, |who|);
      if env.cap > sh.slices {
        NotStuck(env, trace[|who|]);
      }
    }
    if sh.work > 0 && env.cap <= sh.slices {
      var trace, who := StuckWithoutRoom(env);
      assert Deadlocks(env, trace, who, 0);
    }
  }
}
