/** What every interleaving of the ring program keeps, and what it ends with. */
module RingCorrectness {
  import opened Arith
  import opened RingProgram
  import opened RingMachine

  /** The phase in which rank `r` stores chunk `c`. */
  function StorePhase(n: nat, r: nat, c: nat): (p: nat)
    requires n >= 2 && r < n && c < n
    ensures n - 1 <= p < Phases(n)
  {
    n - 1 + (if r >= c then r - c else r + n - c)
  }

  lemma StorePhaseIsChunkAt(n: nat, r: nat, p: nat, c: nat)
    requires n >= 2 && r < n && p < Phases(n) && c < n
    ensures StorePhase(n, r, c) == p <==> p >= n - 1 && ChunkAt(n, r, p) == c
  {
    ModRanksIsChunkAt(n, r, p);
  }

  /** What a rank works on in phase p is what its predecessor worked on in phase p - 1. */
  lemma ChunkShift(n: nat, r: nat, p: nat)
    requires n >= 2 && r < n && 1 <= p < Phases(n)
    ensures ChunkAt(n, Prev(n, r), p - 1) == ChunkAt(n, r, p)
  {
    if r == 0 {
      ModShift(2 * n - (p + 1), n, 1);
    }
  }

  /** Element `i` has been stored by rank `r` when it is at position `q`. */
  predicate Stored(lay: Layout, r: nat, q: Pos, i: nat)
    requires lay.n >= 2 && r < lay.n && lay.home(i).1 < lay.n
  {
    var (l, c, s) := lay.home(i);
    Before(Pos(l, StorePhase(lay.n, r, c), s), q)
  }

  /** `fifo` holds the messages of rank `r` numbered from `from` on. */
  ghost predicate Holds<T>(env: Env<T>, r: nat, fifo: seq<seq<T>>, from: nat)
    requires env.Valid() && r < env.lay.n
  {
    forall j :: 0 <= j < |fifo| ==> fifo[j] == Message(env, r, MsgPos(env.lay, from + j))
  }

  /** The FIFO from `r` to its successor holds exactly the messages sent and not yet received, in order. */
  ghost predicate FifoOk<T>(env: Env<T>, st: State<T>, r: nat)
    requires env.Valid() && WellFormed(env, st) && r < env.lay.n
  {
    var from, to := RecvIx(env.lay, st.pos[Next(env.lay.n, r)]), SendIx(env.lay, st.pos[r]);
    && from + |st.fifos[r]| == to
    && |st.fifos[r]| <= env.cap
    && Holds(env, r, st.fifos[r], from)
  }

  /** Rank `r`'s buffer holds the final value where it has stored, and is untouched elsewhere. */
  ghost predicate BufOk<T>(env: Env<T>, st: State<T>, r: nat)
    requires env.Valid() && WellFormed(env, st) && r < env.lay.n
  {
    var lay := env.lay;
    && |st.bufs[r]| == |env.output[r]|
    && (forall i :: 0 <= i < |st.bufs[r]| ==>
          st.bufs[r][i] ==
            if lay.base <= i < lay.base + lay.size && Stored(lay, r, st.pos[r], i)
            then Final(env, lay.home(i).1, i) else env.output[r][i])
  }

  ghost predicate Inv<T>(env: Env<T>, st: State<T>)
    requires env.Valid()
  {
    && WellFormed(env, st)
    && (forall r :: 0 <= r < env.lay.n ==> FifoOk(env, st, r))
    && (forall r :: 0 <= r < env.lay.n ==> BufOk(env, st, r))
  }

  lemma InitInv<T>(env: Env<T>)
    requires env.Valid()
    ensures Inv(env, Init(env))
  {
  }

  lemma ReceivedIs<T>(env: Env<T>, st: State<T>, r: nat)
    requires env.Valid() && Inv(env, st) && r < env.lay.n
    requires KindOf(env, st, r).Receives() && st.fifos[Prev(env.lay.n, r)] != []
    ensures st.fifos[Prev(env.lay.n, r)][0] == Message(env, Prev(env.lay.n, r), st.pos[r].(phase := st.pos[r].phase - 1))
  {
    var n, q, p := env.lay.n, st.pos[r], Prev(env.lay.n, r);
    assert FifoOk(env, st, p);
    assert Next(n, p) == r;
    MsgPosOf(env.lay, q.loop, q.phase - 1, q.slice);
  }

  /** The receiver and the sender of a slice always agree on its size. */
  lemma AlwaysAgree<T>(env: Env<T>, st: State<T>, r: nat)
    requires env.Valid() && Inv(env, st) && r < env.lay.n
    ensures SizesAgree(env, st, r)
  {
    if KindOf(env, st, r).Receives() && st.fifos[Prev(env.lay.n, r)] != [] {
      ReceivedIs(env, st, r);
      ChunkShift(env.lay.n, r, st.pos[r].phase);
    }
  }

  /** Data that is still to be read has not been overwritten, even when the operation is in place. */
  lemma SourceUntouched<T>(env: Env<T>, st: State<T>, r: nat, i: nat)
    requires env.Valid() && Inv(env, st) && r < env.lay.n && KindOf(env, st, r).Reads()
    requires SlotStart(env.lay, r, st.pos[r]) <= i < SlotStart(env.lay, r, st.pos[r]) + SlotLength(env.lay, r, st.pos[r])
    ensures i < env.lay.base + env.lay.size
    ensures Source(env, st, r)[i] == env.input[r][i]
  {
    var q := st.pos[r];
    SlotsInside(env.lay, r, q);
    assert env.lay.home(i) == (q.loop, ChunkAt(env.lay.n, r, q.phase), q.slice);
    assert BufOk(env, st, r);
  }

  /** How the value of one phase follows from the value received. */
  lemma ValueStep<T>(env: Env<T>, r: nat, p: nat, i: nat)
    requires env.Valid() && r < env.lay.n && 1 <= p < Phases(env.lay.n)
    requires forall r :: 0 <= r < env.lay.n ==> i < |env.input[r]|
    ensures var kind, got := KindAt(env.lay.n, p), Value(env, Prev(env.lay.n, r), p - 1, i);
      Value(env, r, p, i) == if kind.Reads() then Combine(env, kind, r, env.input[r][i], got) else got
  {
    ChunkShift(env.lay.n, r, p);
    ModRanksIsChunkAt(env.lay.n, r, p);
  }

  lemma ProducedElement<T>(env: Env<T>, st: State<T>, r: nat, j: nat)
    requires env.Valid() && Inv(env, st) && r < env.lay.n && Enabled(env, st, r) && SizesAgree(env, st, r)
    requires SlotInside(env.lay, SlotStart(env.lay, r, st.pos[r]), SlotLength(env.lay, r, st.pos[r]))
    requires j < SlotLength(env.lay, r, st.pos[r])
    ensures Produced(env, st, r)[j] == Value(env, r, st.pos[r].phase, SlotStart(env.lay, r, st.pos[r]) + j)
  {
    hide FifoOk, BufOk;
    var n, q, kind := env.lay.n, st.pos[r], KindOf(env, st, r);
    var i := SlotStart(env.lay, r, q) + j;
    if kind.Reads() {
      SourceUntouched(env, st, r, i);
    }
    if kind.Receives() {
      hide Value;
      ReceivedIs(env, st, r);
      ChunkShift(n, r, q.phase);
      assert st.fifos[Prev(n, r)][0][j] == Value(env, Prev(n, r), q.phase - 1, i);
      ValueStep(env, r, q.phase, i);
    }
  }

  /** Each step produces exactly the message the position calls for. */
  lemma ProducedIs<T>(env: Env<T>, st: State<T>, r: nat)
    requires env.Valid() && Inv(env, st) && r < env.lay.n && Enabled(env, st, r) && SizesAgree(env, st, r)
    ensures SlotInside(env.lay, SlotStart(env.lay, r, st.pos[r]), SlotLength(env.lay, r, st.pos[r]))
    ensures Produced(env, st, r) == Message(env, r, st.pos[r])
  {
    hide FifoOk, BufOk, Value;
    SlotsInside(env.lay, r, st.pos[r]);
    forall j | 0 <= j < SlotLength(env.lay, r, st.pos[r])
      ensures Produced(env, st, r)[j] == Message(env, r, st.pos[r])[j]
    {
      ProducedElement(env, st, r, j);
    }
  }

  // ---------------------------------------------------------------- one step keeps the invariant

  /** A step with the produced data replaced by the message it must be. */
  ghost predicate Effect<T>(env: Env<T>, st: State<T>, r: nat, st': State<T>)
    requires env.Valid()
  {
    && WellFormed(env, st) && WellFormed(env, st') && r < env.lay.n
    && Enabled(env, st, r)
    && var n, q, kind := env.lay.n, st.pos[r], KindOf(env, st, r);
    && st'.pos == st.pos[r := Succ(env.lay, q)]
    && st'.fifos[r] == (if kind.Sends() then st.fifos[r] + [Message(env, r, q)] else st.fifos[r])
    && st'.fifos[Prev(n, r)] == (if kind.Receives() then st.fifos[Prev(n, r)][1..] else st.fifos[Prev(n, r)])
    && (forall k :: 0 <= k < n && k != r && k != Prev(n, r) ==> st'.fifos[k] == st.fifos[k])
    && st'.bufs[r] == (if kind.Stores() then Write(st.bufs[r], SlotStart(env.lay, r, q), Message(env, r, q)) else st.bufs[r])
    && (forall k :: 0 <= k < n && k != r ==> st'.bufs[k] == st.bufs[k])
  }

  lemma StepEffect<T>(env: Env<T>, st: State<T>, r: nat, st': State<T>)
    requires env.Valid() && Inv(env, st) && Moves(env, st, r, st')
    ensures Effect(env, st, r, st')
  {
    ProducedIs(env, st, r);
  }

  lemma HoldsPop<T>(env: Env<T>, r: nat, fifo: seq<seq<T>>, from: nat)
    requires env.Valid() && r < env.lay.n && Holds(env, r, fifo, from) && fifo != []
    ensures Holds(env, r, fifo[1..], from + 1)
  {
    forall j | 0 <= j < |fifo[1..]|
      ensures fifo[1..][j] == Message(env, r, MsgPos(env.lay, from + 1 + j))
    {
      assert fifo[1 + j] == Message(env, r, MsgPos(env.lay, from + (1 + j)));
    }
  }

  lemma HoldsAppend<T>(env: Env<T>, r: nat, fifo: seq<seq<T>>, from: nat, q: Pos)
    requires env.Valid() && r < env.lay.n && Holds(env, r, fifo, from) && MsgPos(env.lay, from + |fifo|) == q
    ensures Holds(env, r, fifo + [Message(env, r, q)], from)
  {
  }

  lemma StepSendFifo<T>(env: Env<T>, st: State<T>, r: nat, st': State<T>)
    requires env.Valid() && Effect(env, st, r, st') && FifoOk(env, st, r)
    ensures FifoOk(env, st', r)
  {
    hide RecvIx, SendIx, MsgPos;
    var q, from := st.pos[r], RecvIx(env.lay, st.pos[Next(env.lay.n, r)]);
    IxSucc(env.lay, q);
    assert Holds(env, r, st.fifos[r], from);
    if KindOf(env, st, r).Sends() {
      MsgPosSent(env.lay, q);
      HoldsAppend(env, r, st.fifos[r], from, q);
    }
  }

  /** What a step of rank `r` does to the FIFO it receives from. */
  lemma EffectOnPrev<T>(env: Env<T>, st: State<T>, r: nat, st': State<T>)
    requires env.Valid() && Effect(env, st, r, st')
    ensures var n, k := env.lay.n, Prev(env.lay.n, r);
      && Next(n, k) == r && k != r && st'.pos[k] == st.pos[k] && st'.pos[r] == Succ(env.lay, st.pos[r])
      && st'.fifos[k] == (if KindOf(env, st, r).Receives() then st.fifos[k][1..] else st.fifos[k])
      && (KindOf(env, st, r).Receives() ==> st.fifos[k] != [])
  {
  }

  lemma StepRecvFifo<T>(env: Env<T>, st: State<T>, r: nat, st': State<T>, k: nat)
    requires env.Valid() && Effect(env, st, r, st') && k == Prev(env.lay.n, r) && FifoOk(env, st, k)
    ensures FifoOk(env, st', k)
  {
    EffectOnPrev(env, st, r, st');
    IxSucc(env.lay, st.pos[r]);
    hide RecvIx, SendIx, FifoOk;
    ReceiveFifo(env, st, st', k, r, KindOf(env, st, r).Receives());
  }

  lemma ReceiveFifo<T>(env: Env<T>, st: State<T>, st': State<T>, k: nat, r: nat, receives: bool)
    requires env.Valid() && WellFormed(env, st) && WellFormed(env, st') && k < env.lay.n && r == Next(env.lay.n, k) && FifoOk(env, st, k)
    requires SendIx(env.lay, st'.pos[k]) == SendIx(env.lay, st.pos[k])
    requires RecvIx(env.lay, st'.pos[r]) == RecvIx(env.lay, st.pos[r]) + (if receives then 1 else 0)
    requires (receives ==> st.fifos[k] != []) && st'.fifos[k] == if receives then st.fifos[k][1..] else st.fifos[k]
    ensures FifoOk(env, st', k)
  {
    hide RecvIx, SendIx, Holds;
    if receives { HoldsPop(env, k, st.fifos[k], RecvIx(env.lay, st.pos[r])); }
  }

  /** Storing slice by slice: position `q` stores exactly the elements located in its slot. */
  lemma StoredStep(lay: Layout, r: nat, q: Pos, i: nat)
    requires lay.Valid() && r < lay.n && ValidPos(lay, q) && lay.base <= i < lay.base + lay.size
    ensures lay.home(i).1 < lay.n
    ensures Stored(lay, r, Succ(lay, q), i) <==>
            Stored(lay, r, q, i) ||
            (KindAt(lay.n, q.phase).Stores() && SlotStart(lay, r, q) <= i < SlotStart(lay, r, q) + SlotLength(lay, r, q))
  {
    var (l, c, s) := lay.home(i);
    StorePhaseIsChunkAt(lay.n, r, q.phase, c);
  }

  lemma StepBuf<T>(env: Env<T>, st: State<T>, r: nat, st': State<T>, k: nat)
    requires env.Valid() && Effect(env, st, r, st') && k < env.lay.n && BufOk(env, st, k)
    ensures BufOk(env, st', k)
  {
    if k == r {
      var lay, q := env.lay, st.pos[r];
      SlotsInside(lay, r, q);
      forall i | 0 <= i < |st'.bufs[r]|
        ensures st'.bufs[r][i] ==
                if lay.base <= i < lay.base + lay.size && Stored(lay, r, st'.pos[r], i)
                then Final(env, lay.home(i).1, i) else env.output[r][i]
      {
        StepElement(env, st, r, st', i);
      }
    }
  }

  lemma StepElement<T>(env: Env<T>, st: State<T>, r: nat, st': State<T>, i: nat)
    requires env.Valid() && Effect(env, st, r, st') && BufOk(env, st, r) && i < |st'.bufs[r]|
    ensures var lay := env.lay;
      st'.bufs[r][i] ==
        if lay.base <= i < lay.base + lay.size && Stored(lay, r, st'.pos[r], i)
        then Final(env, lay.home(i).1, i) else env.output[r][i]
  {
    hide SlotStart, SlotLength, Stored, Final, Message, Value, ChunkAt, Succ, FifoOk, Partial;
    var lay, q := env.lay, st.pos[r];
    var o, len := SlotStart(lay, r, q), SlotLength(lay, r, q);
    if lay.base <= i < lay.base + lay.size {
      StoredStep(lay, r, q, i);
    }
    if KindOf(env, st, r).Stores() && o <= i < o + len {
      SlotHome(lay, r, q, i);
      StoredIsFinal(env, r, q, i - o);
    }
  }

  /** An element of a slot is at home in the chunk the slot belongs to. */
  lemma SlotHome(lay: Layout, r: nat, q: Pos, i: nat)
    requires lay.Valid() && r < lay.n && q.phase < Phases(lay.n)
    requires SlotStart(lay, r, q) <= i < SlotStart(lay, r, q) + SlotLength(lay, r, q)
    ensures lay.base <= i < lay.base + lay.size && lay.home(i).1 == ChunkAt(lay.n, r, q.phase) < lay.n
  {
    hide ChunkAt;
  }

  /** What a storing primitive passes on is the final value of its chunk. */
  lemma StoredIsFinal<T>(env: Env<T>, r: nat, q: Pos, j: nat)
    requires env.Valid() && r < env.lay.n && q.phase < Phases(env.lay.n) && KindAt(env.lay.n, q.phase).Stores()
    requires j < SlotLength(env.lay, r, q)
    requires forall k :: 0 <= k < env.lay.n ==> SlotStart(env.lay, r, q) + j < |env.input[k]|
    ensures Message(env, r, q)[j] == Final(env, ChunkAt(env.lay.n, r, q.phase), SlotStart(env.lay, r, q) + j)
  {
    hide SlotStart, SlotLength, Final, ChunkAt, Partial;
    assert Message(env, r, q)[j] == Value(env, r, q.phase, SlotStart(env.lay, r, q) + j);
  }

  lemma StepInv<T>(env: Env<T>, st: State<T>, r: nat, st': State<T>)
    requires env.Valid() && Inv(env, st) && Moves(env, st, r, st')
    ensures Inv(env, st')
  {
    StepEffect(env, st, r, st');
    forall k | 0 <= k < env.lay.n
      ensures FifoOk(env, st', k) && BufOk(env, st', k)
    {
      assert FifoOk(env, st, k);
      if k == r {
        StepSendFifo(env, st, r, st');
      } else if k == Prev(env.lay.n, r) {
        StepRecvFifo(env, st, r, st', k);
      }
      StepBuf(env, st, r, st', k);
    }
  }

  /** Every state of every interleaving satisfies the invariant. */
  lemma {:induction false} RunInv<T>(env: Env<T>, trace: seq<State<T>>, who: seq<nat>, k: nat)
    requires env.Valid() && Run(env, trace, who) && k < |trace|
    ensures Inv(env, trace[k])
  {
    hide Inv, Moves;
    if k == 0 {
      InitInv(env);
    } else {
      RunInv(env, trace, who, k - 1);
      StepInv(env, trace[k - 1], who[k - 1], trace[k]);
    }
  }

}
