/**
 n ranks run the ring program concurrently. Each rank is connected to the next by a FIFO of
 bounded capacity; a step of the machine is one slice of one primitive on one rank, and any
 rank whose data and credits are there may take the next step.
 */
module RingMachine {
  import opened Arith
  import opened RingProgram

  /**
   A division of the elements [base, base + size) into slots: slice `s` of chunk `c` of loop `l`
   holds `length(l, c, s)` elements from `start(l, c, s)`; `home` locates an element.
   */
  datatype Layout = Layout(n: nat, loops: nat, slices: nat, base: nat, size: nat,
                           start: (nat, nat, nat) -> nat, length: (nat, nat, nat) -> nat,
                           home: nat -> (nat, nat, nat))
  {
    ghost predicate Valid() {
      && n >= 2 && slices >= 1
      && (forall l: nat, c: nat, s: nat :: c < n && length(l, c, s) > 0 ==>
            base <= start(l, c, s) && start(l, c, s) + length(l, c, s) <= base + size)
      && (forall l: nat, c: nat, s: nat, i: nat ::
            c < n && start(l, c, s) <= i < start(l, c, s) + length(l, c, s) ==> home(i) == (l, c, s))
      && (forall i: nat :: base <= i < base + size ==>
            var (l, c, s) := home(i);
            l < loops && c < n && s < slices && start(l, c, s) <= i < start(l, c, s) + length(l, c, s))
    }
  }

  /** One all-reduce: who holds what, how values combine, and how many slices a FIFO can hold. */
  datatype Env<!T> = Env(lay: Layout, cap: nat, input: seq<seq<T>>, output: seq<seq<T>>, inPlace: bool,
                         reduce: (T, T) -> T, pre: (nat, T) -> T, post: T -> T)
  {
    ghost predicate Valid() {
      && lay.Valid()
      && |input| == |output| == lay.n
      && (forall r :: 0 <= r < lay.n ==> |input[r]| >= lay.base + lay.size)
      && (forall r :: 0 <= r < lay.n ==> |output[r]| >= lay.base + lay.size)
      && (inPlace ==> output == input)
    }
  }

  /** Control state of a rank: loop, primitive within the loop, slice within the primitive. */
  datatype Pos = Pos(loop: nat, phase: nat, slice: nat)

  datatype State<T> = State(pos: seq<Pos>, bufs: seq<seq<T>>, fifos: seq<seq<seq<T>>>)

  function Prev(n: nat, r: nat): (p: nat)
    requires r < n
    ensures p < n
  {
    if r == 0 then n - 1 else r - 1
  }

  function Next(n: nat, r: nat): (p: nat)
    requires r < n
    ensures p < n
  {
    if r + 1 == n then 0 else r + 1
  }

  predicate ValidPos(lay: Layout, q: Pos)
    requires lay.n >= 2
  {
    q.phase < Phases(lay.n) && q.slice < lay.slices && q.loop <= lay.loops &&
    (q.loop == lay.loops ==> q.phase == 0 && q.slice == 0)
  }

  predicate Done(lay: Layout, q: Pos) { q.loop >= lay.loops }

  function Succ(lay: Layout, q: Pos): Pos
    requires lay.n >= 2
  {
    if q.slice + 1 < lay.slices then q.(slice := q.slice + 1)
    else if q.phase + 1 < Phases(lay.n) then Pos(q.loop, q.phase + 1, 0)
    else Pos(q.loop + 1, 0, 0)
  }

  predicate Before(a: Pos, b: Pos) {
    a.loop < b.loop ||
    (a.loop == b.loop && (a.phase < b.phase || (a.phase == b.phase && a.slice < b.slice)))
  }

  // ---------------------------------------------------------------- the machine

  predicate WellFormed<T>(env: Env<T>, st: State<T>) {
    && env.lay.n >= 2
    && |st.pos| == |st.bufs| == |st.fifos| == |env.input| == env.lay.n
    && (forall r :: 0 <= r < env.lay.n ==> ValidPos(env.lay, st.pos[r]))
    && (forall r :: 0 <= r < env.lay.n ==> |st.bufs[r]| >= env.lay.base + env.lay.size)
  }

  function Init<T>(env: Env<T>): State<T>
    requires env.lay.n >= 2
  {
    State(seq(env.lay.n, _ => Pos(0, 0, 0)), env.output, seq(env.lay.n, _ => []))
  }

  function KindOf<T>(env: Env<T>, st: State<T>, r: nat): Kind
    requires WellFormed(env, st) && r < env.lay.n
  {
    KindAt(env.lay.n, st.pos[r].phase)
  }

  /** First element and number of elements of the slice rank `r` handles at position `q`. */
  function SlotStart(lay: Layout, r: nat, q: Pos): nat
    requires lay.n >= 2 && r < lay.n && q.phase < Phases(lay.n)
  {
    lay.start(q.loop, ChunkAt(lay.n, r, q.phase), q.slice)
  }

  function SlotLength(lay: Layout, r: nat, q: Pos): nat
    requires lay.n >= 2 && r < lay.n && q.phase < Phases(lay.n)
  {
    lay.length(q.loop, ChunkAt(lay.n, r, q.phase), q.slice)
  }

  /** waitPeer lets the slice through: data has been posted and a slot of the send FIFO is free. */
  predicate Enabled<T>(env: Env<T>, st: State<T>, r: nat)
    requires WellFormed(env, st) && r < env.lay.n
  {
    && !Done(env.lay, st.pos[r])
    && (KindOf(env, st, r).Receives() ==> st.fifos[Prev(env.lay.n, r)] != [])
    && (KindOf(env, st, r).Sends() ==> |st.fifos[r]| < env.cap)
  }

  /** The slice at the head of the receive FIFO has the size the receiver expects. */
  predicate SizesAgree<T>(env: Env<T>, st: State<T>, r: nat)
    requires WellFormed(env, st) && r < env.lay.n
  {
    KindOf(env, st, r).Receives() && st.fifos[Prev(env.lay.n, r)] != [] ==>
      |st.fifos[Prev(env.lay.n, r)][0]| == SlotLength(env.lay, r, st.pos[r])
  }

  /** The buffer a primitive reads its own contribution from. */
  function Source<T>(env: Env<T>, st: State<T>, r: nat): seq<T>
    requires WellFormed(env, st) && r < env.lay.n
  {
    if env.inPlace then st.bufs[r] else env.input[r]
  }

  predicate SlotInside(lay: Layout, o: nat, len: nat) {
    len > 0 ==> o + len <= lay.base + lay.size
  }

  /** The user's element with the pre-operation applied comes first, as in reduceCopy, then what came from the previous rank. */
  function Combine<T>(env: Env<T>, kind: Kind, r: nat, x: T, got: T): T {
    match kind
    case RecvReduceCopySend => env.post(env.reduce(env.pre(r, x), got))
    case _ => env.reduce(env.pre(r, x), got)
  }

  /** What reduceCopy computes for each element of the slice. */
  function Produced<T>(env: Env<T>, st: State<T>, r: nat): (data: seq<T>)
    requires WellFormed(env, st) && r < env.lay.n && Enabled(env, st, r) && SizesAgree(env, st, r)
    requires |env.input[r]| >= env.lay.base + env.lay.size
    requires SlotInside(env.lay, SlotStart(env.lay, r, st.pos[r]), SlotLength(env.lay, r, st.pos[r]))
    ensures |data| == SlotLength(env.lay, r, st.pos[r])
  {
    var o, len := SlotStart(env.lay, r, st.pos[r]), SlotLength(env.lay, r, st.pos[r]);
    var src := Source(env, st, r);
    if KindOf(env, st, r).Send? then
      seq(len, j requires 0 <= j < len => env.pre(r, src[o + j]))
    else
      var got := st.fifos[Prev(env.lay.n, r)][0];
      if KindOf(env, st, r).Reads() then
        seq(len, j requires 0 <= j < len => Combine(env, KindOf(env, st, r), r, src[o + j], got[j]))
      else
        got
  }

  function Write<T>(buf: seq<T>, o: nat, data: seq<T>): (buf': seq<T>)
    ensures |buf'| == |buf|
    ensures forall i :: 0 <= i < |buf| ==> buf'[i] == if o <= i < o + |data| then data[i - o] else buf[i]
  {
    seq(|buf|, i requires 0 <= i < |buf| => if o <= i < o + |data| then data[i - o] else buf[i])
  }

  /** One slice on rank `r`: take from the previous rank, compute, store, pass on, advance. */
  function Step<T>(env: Env<T>, st: State<T>, r: nat): State<T>
    requires WellFormed(env, st) && r < env.lay.n && Enabled(env, st, r) && SizesAgree(env, st, r)
    requires |env.input[r]| >= env.lay.base + env.lay.size
    requires SlotInside(env.lay, SlotStart(env.lay, r, st.pos[r]), SlotLength(env.lay, r, st.pos[r]))
  {
    var n, kind, data := env.lay.n, KindOf(env, st, r), Produced(env, st, r);
    var fifos := if kind.Receives() then st.fifos[Prev(n, r) := st.fifos[Prev(n, r)][1..]] else st.fifos;
    var fifos := if kind.Sends() then fifos[r := fifos[r] + [data]] else fifos;
    var bufs := if kind.Stores() then st.bufs[r := Write(st.bufs[r], SlotStart(env.lay, r, st.pos[r]), data)] else st.bufs;
    State(st.pos[r := Succ(env.lay, st.pos[r])], bufs, fifos)
  }

  lemma SlotsInside(lay: Layout, r: nat, q: Pos)
    requires lay.Valid() && r < lay.n && q.phase < Phases(lay.n)
    ensures SlotInside(lay, SlotStart(lay, r, q), SlotLength(lay, r, q))
  {
  }

  /** `st'` is the state after some rank moves one slice. */
  ghost predicate Moves<T>(env: Env<T>, st: State<T>, r: nat, st': State<T>)
    requires env.Valid()
  {
    && WellFormed(env, st) && r < env.lay.n && Enabled(env, st, r) && SizesAgree(env, st, r)
    && (SlotsInside(env.lay, r, st.pos[r]); st' == Step(env, st, r))
  }

  /** A run: any interleaving of the ranks, from the initial state. */
  ghost predicate Run<T>(env: Env<T>, trace: seq<State<T>>, who: seq<nat>)
    requires env.Valid()
  {
    && |trace| == |who| + 1
    && trace[0] == Init(env)
    && (forall k :: 0 <= k < |who| ==> Moves(env, trace[k], who[k], trace[k + 1]))
  }

  /** No rank can move. */
  ghost predicate Stuck<T>(env: Env<T>, st: State<T>)
    requires env.Valid() && WellFormed(env, st)
  {
    forall r :: 0 <= r < env.lay.n ==> !(Enabled(env, st, r) && SizesAgree(env, st, r))
  }

  // ---------------------------------------------------------------- what the messages must be

  /** Reduction of the pre-processed inputs of ranks r - p .. r, as the chain of ranks builds it up. */
  function Partial<T>(env: Env<T>, r: nat, p: nat, i: nat): T
    requires r < env.lay.n == |env.input|
    requires forall r :: 0 <= r < env.lay.n ==> i < |env.input[r]|
    decreases p
  {
    var own := env.pre(r, env.input[r][i]);
    if p == 0 then own else env.reduce(own, Partial(env, Prev(env.lay.n, r), p - 1, i))
  }

  /** The value every rank must end up with at element `i` of chunk `c`. */
  function Final<T>(env: Env<T>, c: nat, i: nat): T
    requires c < env.lay.n == |env.input|
    requires forall r :: 0 <= r < env.lay.n ==> i < |env.input[r]|
  {
    env.post(Partial(env, c, env.lay.n - 1, i))
  }

  /** Element `i` as rank `r` must produce it in phase `p`. */
  function Value<T>(env: Env<T>, r: nat, p: nat, i: nat): T
    requires 2 <= env.lay.n == |env.input| && r < env.lay.n && p < Phases(env.lay.n)
    requires forall r :: 0 <= r < env.lay.n ==> i < |env.input[r]|
  {
    if p < env.lay.n - 1 then Partial(env, r, p, i) else Final(env, ChunkAt(env.lay.n, r, p), i)
  }

  /** The slice rank `r` must produce at position `q`. */
  ghost function Message<T>(env: Env<T>, r: nat, q: Pos): (m: seq<T>)
    requires env.Valid() && r < env.lay.n && q.phase < Phases(env.lay.n)
    ensures |m| == SlotLength(env.lay, r, q)
  {
    SlotsInside(env.lay, r, q);
    var o, len := SlotStart(env.lay, r, q), SlotLength(env.lay, r, q);
    seq(len, j requires 0 <= j < len => Value(env, r, q.phase, o + j))
  }

  // ---------------------------------------------------------------- numbering the messages

  /** Primitives of a loop that send; as many receive. */
  function Hops(n: nat): nat
    requires n >= 2
  {
    2 * n - 2
  }

  /** Slices of `p` primitives in the loop number `l`, with `h` primitives per loop before it, of `k` slices each. */
  function Slices(h: nat, k: nat, l: nat, p: nat): nat {
    MulNonNeg(l, h);
    MulNonNeg(l * h + p, k);
    (l * h + p) * k
  }

  lemma SlicesNext(h: nat, k: nat, l: nat, p: nat)
    ensures Slices(h, k, l, p + 1) == Slices(h, k, l, p) + k && Slices(h, k, l + 1, 0) == Slices(h, k, l, h)
  {
    assert (l * h + p + 1) * k == (l * h + p) * k + k;
    assert (l + 1) * h == l * h + h;
  }

  /** Slices a rank has sent before reaching position `q`. */
  function SendIx(lay: Layout, q: Pos): nat
    requires lay.n >= 2
  {
    if q.phase < Hops(lay.n) then Slices(Hops(lay.n), lay.slices, q.loop, q.phase) + q.slice
    else Slices(Hops(lay.n), lay.slices, q.loop, Hops(lay.n))
  }

  /** Slices a rank has received before reaching position `q`. */
  function RecvIx(lay: Layout, q: Pos): nat
    requires lay.n >= 2
  {
    if q.phase == 0 then Slices(Hops(lay.n), lay.slices, q.loop, 0)
    else Slices(Hops(lay.n), lay.slices, q.loop, q.phase - 1) + q.slice
  }

  /** The position from which message number `x` is sent. */
  function MsgPos(lay: Layout, x: nat): (q: Pos)
    requires lay.n >= 2 && lay.slices >= 1
    ensures q.phase < Hops(lay.n)
  {
    Pos(x / lay.slices / Hops(lay.n), x / lay.slices % Hops(lay.n), x % lay.slices)
  }

  lemma MsgPosOf(lay: Layout, l: nat, p: nat, s: nat)
    requires lay.n >= 2 && p < Hops(lay.n) && s < lay.slices
    ensures MsgPos(lay, Slices(Hops(lay.n), lay.slices, l, p) + s) == Pos(l, p, s)
  {
    var h, k := Hops(lay.n), lay.slices;
    MulNonNeg(l, h);
    DivUnique(Slices(h, k, l, p) + s, k, l * h + p, s);
    DivUnique(l * h + p, h, l, p);
  }

  lemma MsgPosSent(lay: Layout, q: Pos)
    requires lay.n >= 2 && ValidPos(lay, q) && KindAt(lay.n, q.phase).Sends()
    ensures MsgPos(lay, SendIx(lay, q)) == q
  {
    hide Slices, MsgPos;
    MsgPosOf(lay, q.loop, q.phase, q.slice);
  }

  lemma IxSucc(lay: Layout, q: Pos)
    requires lay.n >= 2 && ValidPos(lay, q)
    ensures SendIx(lay, Succ(lay, q)) == SendIx(lay, q) + (if KindAt(lay.n, q.phase).Sends() then 1 else 0)
    ensures RecvIx(lay, Succ(lay, q)) == RecvIx(lay, q) + (if KindAt(lay.n, q.phase).Receives() then 1 else 0)
  {
    hide Slices;
    var h, k := Hops(lay.n), lay.slices;
    SlicesNext(h, k, q.loop, q.phase);
    if q.phase >= 1 { SlicesNext(h, k, q.loop, q.phase - 1); }
  }
}
