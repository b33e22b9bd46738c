/** Deadlock freedom of the ring: it holds exactly when a FIFO can hold more than one chunk's slices. */
module RingProgress {
  import opened Arith
  import opened RingProgram
  import opened RingMachine
  import opened RingCorrectness

  /** Mixed-radix numbers grow with their most significant part. */
  lemma FlatMono(a: int, s: int, b: int, t: int, k: nat)
    requires a < b && 0 <= s <= k && 0 <= t
    ensures a * k + s <= b * k + t
  {
    MulMono(a + 1, b, k);
    assert (a + 1) * k == a * k + k;
  }

  lemma IxMono(lay: Layout, a: Pos, b: Pos)
    requires lay.n >= 2 && lay.slices >= 1 && ValidPos(lay, a) && ValidPos(lay, b) && !Before(b, a)
    ensures SendIx(lay, a) <= SendIx(lay, b)
    ensures RecvIx(lay, a) <= RecvIx(lay, b)
  {
    var h, k := Hops(lay.n), lay.slices;
    if a.loop < b.loop {
      MulMono(a.loop + 1, b.loop, h);
      assert (a.loop + 1) * h == a.loop * h + h;
    }
    var sa, sb := a.loop * h + Min(a.phase, h), b.loop * h + Min(b.phase, h);
    if sa < sb {
      FlatMono(sa, if a.phase < h then a.slice else 0, sb, if b.phase < h then b.slice else 0, k);
    }
    var ra, rb := a.loop * h + Max(a.phase - 1, 0), b.loop * h + Max(b.phase - 1, 0);
    if ra < rb {
      FlatMono(ra, if a.phase > 0 then a.slice else 0, rb, if b.phase > 0 then b.slice else 0, k);
    }
  }

  /** A rank is ahead of its own receptions by at most one chunk, and by something once it has sent. */
  lemma IxGap(lay: Layout, q: Pos)
    requires lay.n >= 2 && ValidPos(lay, q)
    ensures SendIx(lay, q) - RecvIx(lay, q) <= lay.slices
    ensures KindAt(lay.n, q.phase).Receives() ==> RecvIx(lay, q) < SendIx(lay, q)
  {
    var h, k, l, p := Hops(lay.n), lay.slices, q.loop, q.phase;
    if p == 0 {
      assert (l * h + p) * k == l * h * k;
    } else {
      assert (l * h + (p - 1)) * k + k == (l * h + p) * k;
    }
  }

  /** A rank that no other is behind. */
  lemma LeastRank(pos: seq<Pos>, n: nat) returns (r: nat)
    requires 0 < n <= |pos|
    ensures r < n && forall k :: 0 <= k < n ==> !Before(pos[k], pos[r])
  {
    r := 0;
    for m := 1 to n
      invariant r < m && forall k :: 0 <= k < m ==> !Before(pos[k], pos[r])
    {
      if Before(pos[m], pos[r]) { r := m; }
    }
  }

  lemma LeastCanMove<T>(env: Env<T>, st: State<T>, r: nat)
    requires env.Valid() && Inv(env, st) && env.cap > env.lay.slices && r < env.lay.n
    requires !Done(env.lay, st.pos[r]) && forall k :: 0 <= k < env.lay.n ==> !Before(st.pos[k], st.pos[r])
    ensures Enabled(env, st, r)
  {
    hide SendIx, RecvIx, MsgPos, Holds, BufOk;
    var n := env.lay.n;
    IxGap(env.lay, st.pos[r]);
    assert FifoOk(env, st, r) && FifoOk(env, st, Prev(n, r));
    assert Next(n, Prev(n, r)) == r;
    IxMono(env.lay, st.pos[r], st.pos[Prev(n, r)]);
    IxMono(env.lay, st.pos[r], st.pos[Next(n, r)]);
  }

  /** With room for one slice more than a chunk, no state the ring can reach is stuck before the end. */
  lemma NotStuck<T>(env: Env<T>, st: State<T>)
    requires env.Valid() && Inv(env, st) && env.cap > env.lay.slices && Stuck(env, st)
    ensures forall r :: 0 <= r < env.lay.n ==> Done(env.lay, st.pos[r])
  {
    hide FifoOk, BufOk, Enabled;
    var least := LeastRank(st.pos, env.lay.n);
    if !Done(env.lay, st.pos[least]) {
      LeastCanMove(env, st, least);
      AlwaysAgree(env, st, least);
      assert false;
    }
  }

  // ---------------------------------------------------------------- too little room

  /** Position after sending `j` slices of the first chunk. */
  function SentPos(lay: Layout, j: nat): Pos {
    if j < lay.slices then Pos(0, 0, j) else Pos(0, 1, 0)
  }

  /** Ranks below `r` have filled their FIFO, rank `r` has sent `j` slices, the others have not begun. */
  ghost predicate Filling<T>(env: Env<T>, st: State<T>, r: nat, j: nat)
    requires env.Valid() && env.lay.loops >= 1
  {
    WellFormed(env, st) &&
    forall k :: 0 <= k < env.lay.n ==>
      var sent := if k < r then env.cap else if k == r then j else 0;
      st.pos[k] == SentPos(env.lay, sent) && |st.fifos[k]| == sent
  }

  lemma FillStep<T>(env: Env<T>, st: State<T>, r: nat, j: nat) returns (st': State<T>)
    requires env.Valid() && env.lay.loops >= 1 && r < env.lay.n && j < env.cap <= env.lay.slices
    requires Filling(env, st, r, j)
    ensures Moves(env, st, r, st') && Filling(env, st', r, j + 1)
  {
    SlotsInside(env.lay, r, st.pos[r]);
    st' := Step(env, st, r);
  }

  /** A run that lets every rank send before any receives. */
  lemma FillRun<T>(env: Env<T>, r: nat, j: nat) returns (trace: seq<State<T>>, who: seq<nat>)
    requires env.Valid() && env.lay.loops >= 1 && env.cap <= env.lay.slices
    requires r <= env.lay.n && j <= env.cap && (r == env.lay.n ==> j == 0)
    ensures Run(env, trace, who) && Filling(env, trace[|who|], r, j)
    decreases r, j
  {
    hide Moves;
    if j > 0 {
      trace, who := FillRun(env, r, j - 1);
      var st' := FillStep(env, trace[|who|], r, j - 1);
      trace, who := trace + [st'], who + [r];
    } else if r > 0 {
      trace, who := FillRun(env, r - 1, env.cap);
    } else {
      trace, who := [Init(env)], [];
    }
  }

  /** With no more room than a chunk's slices, some interleaving leaves every rank waiting to send. */
  lemma StuckWithoutRoom<T>(env: Env<T>) returns (trace: seq<State<T>>, who: seq<nat>)
    requires env.Valid() && env.lay.loops >= 1 && env.cap <= env.lay.slices
    ensures Run(env, trace, who) && WellFormed(env, trace[|who|])
    ensures Stuck(env, trace[|who|]) && forall r :: 0 <= r < env.lay.n ==> !Done(env.lay, trace[|who|].pos[r])
  {
    hide Run;
    trace, who := FillRun(env, env.lay.n, 0);
  }

  // ---------------------------------------------------------------- runs are finite

  /** Moves a rank has made when it is at position `q`. */
  function MoveIx(lay: Layout, q: Pos): nat
    requires lay.n >= 2
  {
    (q.loop * Phases(lay.n) + q.phase) * lay.slices + q.slice
  }

  lemma MoveIxSucc(lay: Layout, q: Pos)
    requires lay.n >= 2 && ValidPos(lay, q)
    ensures MoveIx(lay, Succ(lay, q)) == MoveIx(lay, q) + 1
  {
    var m, k, l, p := Phases(lay.n), lay.slices, q.loop, q.phase;
    assert (l * m + p + 1) * k == (l * m + p) * k + k;
    assert (l + 1) * m == l * m + m;
  }

  lemma MoveIxBound(lay: Layout, q: Pos)
    requires lay.n >= 2 && ValidPos(lay, q)
    ensures MoveIx(lay, q) <= lay.loops * Phases(lay.n) * lay.slices
  {
    if q.loop < lay.loops {
      var m, k := Phases(lay.n), lay.slices;
      MulMono(q.loop + 1, lay.loops, m);
      assert (q.loop + 1) * m == q.loop * m + m;
      FlatMono(q.loop * m + q.phase, q.slice, lay.loops * m, 0, k);
    }
  }

  /** Moves made by the first `k` ranks together. */
  function MovesMade(lay: Layout, pos: seq<Pos>, k: nat): nat
    requires lay.n >= 2 && k <= |pos|
  {
    if k == 0 then 0 else MovesMade(lay, pos, k - 1) + MoveIx(lay, pos[k - 1])
  }

  lemma {:induction false} MovesMadeStep(lay: Layout, pos: seq<Pos>, r: nat, k: nat)
    requires lay.n >= 2 && r < |pos| && k <= |pos| && ValidPos(lay, pos[r])
    ensures MovesMade(lay, pos[r := Succ(lay, pos[r])], k) == MovesMade(lay, pos, k) + (if r < k then 1 else 0)
  {
    hide MoveIx;
    if k > 0 {
      MovesMadeStep(lay, pos, r, k - 1);
      MoveIxSucc(lay, pos[r]);
    }
  }

  lemma {:induction false} MovesMadeBound(lay: Layout, pos: seq<Pos>, k: nat)
    requires lay.n >= 2 && k <= |pos| && forall r :: 0 <= r < k ==> ValidPos(lay, pos[r])
    ensures MovesMade(lay, pos, k) <= k * (lay.loops * Phases(lay.n) * lay.slices)
  {
    hide MoveIx;
    if k > 0 {
      MovesMadeBound(lay, pos, k - 1);
      MoveIxBound(lay, pos[k - 1]);
      var b := lay.loops * Phases(lay.n) * lay.slices;
      assert k * b == (k - 1) * b + b;
    }
  }

  lemma {:induction false} MovesCounted<T>(env: Env<T>, trace: seq<State<T>>, who: seq<nat>, k: nat)
    requires env.Valid() && Run(env, trace, who) && k <= |who|
    ensures |trace[k].pos| == env.lay.n && MovesMade(env.lay, trace[k].pos, env.lay.n) == k
  {
    if k == 0 {
      hide Moves;
      NoMovesYet(env.lay, trace[0].pos, env.lay.n);
    } else {
      MovesCounted(env, trace, who, k - 1);
      var st := trace[k - 1];
      assert Moves(env, st, who[k - 1], trace[k]);
      MovesMadeStep(env.lay, st.pos, who[k - 1], env.lay.n);
    }
  }

  lemma {:induction false} NoMovesYet(lay: Layout, pos: seq<Pos>, k: nat)
    requires lay.n >= 2 && k <= |pos| && forall r :: 0 <= r < k ==> pos[r] == Pos(0, 0, 0)
    ensures MovesMade(lay, pos, k) == 0
  {
    if k > 0 {
      NoMovesYet(lay, pos, k - 1);
    }
  }

  /** No run is longer than all the slices of all primitives of all ranks: the ring always comes to an end. */
  lemma RunsAreBounded<T>(env: Env<T>, trace: seq<State<T>>, who: seq<nat>)
    requires env.Valid() && Run(env, trace, who)
    ensures |who| <= env.lay.n * (env.lay.loops * Phases(env.lay.n) * env.lay.slices)
  {
    hide Moves, FifoOk, BufOk, MovesMade;
    MovesCounted(env, trace, who, |who|);
    RunInv(env, trace, who, |who|);
    MovesMadeBound(env.lay, trace[|who|].pos, env.lay.n);
  }
}
