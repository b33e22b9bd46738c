/**
 The credit-based FIFO of the Simple protocol (src/device/prims_simple.h): a ring of step slots, a
 `head` the receiver publishes and a `tail` the sender publishes, over a sequence of kernels that
 may cut chunks into slices differently and round their first step up to a whole chunk.
 */
module SimpleFifo {
  import opened Arith

  /** A kernel's use of the connection: `ops` primitives of `slices` slices of `width` steps each. */
  datatype Kernel = Kernel(slices: nat, width: nat, ops: nat)

  /** Chunk steps divide the number of slots, as NCCL_STEPS, its half and its quarter do. */
  predicate ValidKernel(nSteps: nat, k: Kernel) {
    k.slices >= 1 && k.width >= 1 && k.slices * k.width >= 1 && nSteps % (k.slices * k.width) == 0
  }

  predicate ValidKernels(nSteps: nat, ks: seq<Kernel>) {
    nSteps >= 1 && forall i :: 0 <= i < |ks| ==> ValidKernel(nSteps, ks[i])
  }

  /** roundUp of src/include/align.h. */
  function RoundUp(x: nat, y: nat): (r: nat)
    requires y >= 1
    ensures x <= r < x + y && r % y == 0
  {
    DivModFacts(x + y - 1, y);
    DivUnique((x + y - 1) - (x + y - 1) % y, y, (x + y - 1) / y, 0);
    (x + y - 1) - (x + y - 1) % y
  }

  /** Number of slices kernel `k` moves. */
  function Count(k: Kernel): nat { k.slices * k.ops }

  // ---------------------------------------------------------------- the machine

  /**
   One end of the connection: kernels finished, slices finished in the running kernel, the step
   counter of the running kernel, the cached peer counter, and the step saved in the connection.
   */
  datatype Side = Side(kernel: nat, slice: nat, running: bool, step: nat, cache: nat, saved: nat)

  /**
   `pending` is the slice the sender has stored in its slots and not yet posted, if any; `sent` and
   `got` record the slices posted and received so far.
   */
  datatype Conn<V> = Conn(snd: Side, rcv: Side, head: nat, tail: nat, slots: seq<V>,
                          pending: seq<V>, sent: seq<V>, got: seq<V>)

  datatype Event<V> = SendLoad | SendPoll | Store(v: V) | Post | SendEnd | RecvLoad | RecvPoll | Receive | RecvEnd

  function Start<V>(nSteps: nat, blank: V): Conn<V> {
    Conn(Side(0, 0, false, 0, 0, 0), Side(0, 0, false, 0, 0, 0), 0, 0, seq(nSteps, _ => blank), [], [], [])
  }

  predicate Busy(ks: seq<Kernel>, s: Side) {
    s.running && s.kernel < |ks| && s.slice < Count(ks[s.kernel])
  }

  /** Writes the `width` slots of the slice that starts at `step`. */
  function Fill<V>(slots: seq<V>, step: nat, width: nat, v: V): (slots': seq<V>)
    ensures |slots'| == |slots|
  {
    seq(|slots|, i requires 0 <= i < |slots| => if InSlice(|slots|, step, width, i) then v else slots[i])
  }

  /** Slot `i` belongs to the slice of `width` steps from `step`. */
  predicate InSlice(nSteps: nat, step: nat, width: nat, i: nat)
  {
    nSteps >= 1 && step % nSteps <= i < step % nSteps + width
  }

  predicate Enabled<V>(nSteps: nat, ks: seq<Kernel>, c: Conn<V>, e: Event<V>)
    requires ValidKernels(nSteps, ks)
  {
    match e
    case SendLoad => !c.snd.running && c.snd.kernel < |ks|
    case SendPoll => c.snd.running
    case Store(_) => Busy(ks, c.snd) && c.pending == [] && c.snd.cache + nSteps >= c.snd.step + ks[c.snd.kernel].width
    case Post => Busy(ks, c.snd) && c.pending != []
    case SendEnd => c.snd.running && c.snd.kernel < |ks| && c.snd.slice == Count(ks[c.snd.kernel])
    case RecvLoad => !c.rcv.running && c.rcv.kernel < |ks|
    case RecvPoll => c.rcv.running
    case Receive => Busy(ks, c.rcv) && c.rcv.cache >= c.rcv.step + ks[c.rcv.kernel].width && c.rcv.step % nSteps < |c.slots|
    case RecvEnd => c.rcv.running && c.rcv.kernel < |ks| && c.rcv.slice == Count(ks[c.rcv.kernel])
  }

  function Load(ks: seq<Kernel>, s: Side, peer: nat): Side
    requires s.kernel < |ks| && ks[s.kernel].slices * ks[s.kernel].width >= 1
  {
    Side(s.kernel, 0, true, RoundUp(s.saved, ks[s.kernel].slices * ks[s.kernel].width), peer, s.saved)
  }

  function Apply<V>(nSteps: nat, ks: seq<Kernel>, c: Conn<V>, e: Event<V>): Conn<V>
    requires ValidKernels(nSteps, ks) && Enabled(nSteps, ks, c, e)
  {
    match e
    case SendLoad => c.(snd := Load(ks, c.snd, c.head))
    case SendPoll => c.(snd := c.snd.(cache := c.head))
    case Store(v) => c.(slots := Fill(c.slots, c.snd.step, ks[c.snd.kernel].width, v), pending := [v])
    case Post =>
      var step := c.snd.step + ks[c.snd.kernel].width;
      c.(snd := c.snd.(step := step, slice := c.snd.slice + 1), tail := step,
         pending := [], sent := c.sent + c.pending)
    case SendEnd => c.(snd := c.snd.(running := false, kernel := c.snd.kernel + 1, slice := 0, saved := c.snd.step))
    case RecvLoad =>
      // Publishing the rounded step returns the credits of the skipped slots.
      var rcv := Load(ks, c.rcv, c.tail);
      c.(rcv := rcv, head := rcv.step)
    case RecvPoll => c.(rcv := c.rcv.(cache := c.tail))
    case Receive =>
      var step := c.rcv.step + ks[c.rcv.kernel].width;
      c.(rcv := c.rcv.(step := step, slice := c.rcv.slice + 1), head := step,
         got := c.got + [c.slots[c.rcv.step % nSteps]])
    case RecvEnd => c.(rcv := c.rcv.(running := false, kernel := c.rcv.kernel + 1, slice := 0, saved := c.rcv.step))
  }

  ghost predicate Run<V>(nSteps: nat, ks: seq<Kernel>, blank: V, trace: seq<Conn<V>>, events: seq<Event<V>>)
    requires ValidKernels(nSteps, ks)
  {
    && |trace| == |events| + 1
    && trace[0] == Start(nSteps, blank)
    && (forall i :: 0 <= i < |events| ==>
          Enabled(nSteps, ks, trace[i], events[i]) && trace[i + 1] == Apply(nSteps, ks, trace[i], events[i]))
  }

  // ---------------------------------------------------------------- where the slices lie

  /** Step saved in the connection after the first `k` kernels. */
  function EndStep(ks: seq<Kernel>, k: nat): nat
    requires k <= |ks| && forall i :: 0 <= i < k ==> ks[i].slices * ks[i].width >= 1
    decreases k, 0
  {
    if k == 0 then 0 else SliceStep(ks, k - 1, Count(ks[k - 1]))
  }

  /** First step of slice `i` of kernel `k`, in both ends' counting. */
  function SliceStep(ks: seq<Kernel>, k: nat, i: nat): nat
    requires k < |ks| && forall i :: 0 <= i <= k ==> ks[i].slices * ks[i].width >= 1
    decreases k, 1
  {
    RoundUp(EndStep(ks, k), ks[k].slices * ks[k].width) + i * ks[k].width
  }

  /** Slices moved by the first `k` kernels. */
  function Base(ks: seq<Kernel>, k: nat): nat
    requires k <= |ks|
  {
    if k == 0 then 0 else Base(ks, k - 1) + Count(ks[k - 1])
  }

  /** Number of slice `i` of kernel `k` in the whole run. */
  function SliceIx(ks: seq<Kernel>, k: nat, i: nat): nat
    requires k <= |ks|
  {
    Base(ks, k) + i
  }

  lemma NextSliceStep(ks: seq<Kernel>, k: nat, i: nat)
    requires k < |ks| && forall i :: 0 <= i <= k ==> ks[i].slices * ks[i].width >= 1
    ensures SliceStep(ks, k, i + 1) == SliceStep(ks, k, i) + ks[k].width
  {
    assert (i + 1) * ks[k].width == i * ks[k].width + ks[k].width;
  }

  lemma {:induction false} BaseMono(ks: seq<Kernel>, a: nat, b: nat)
    requires a <= b <= |ks|
    ensures Base(ks, a) <= Base(ks, b)
  {
    if a < b {
      BaseMono(ks, a, b - 1);
    }
  }

  lemma {:induction false} EndMono(nSteps: nat, ks: seq<Kernel>, a: nat, b: nat)
    requires ValidKernels(nSteps, ks) && a <= b <= |ks|
    ensures EndStep(ks, a) <= EndStep(ks, b)
  {
    if a < b {
      EndMono(nSteps, ks, a, b - 1);
      MulNonNeg(Count(ks[b - 1]), ks[b - 1].width);
    }
  }

  /** A slice lies between the ends of the kernels before and after it. */
  lemma SliceWithinKernel(nSteps: nat, ks: seq<Kernel>, k: nat, i: nat)
    requires ValidKernels(nSteps, ks) && k < |ks| && i < Count(ks[k])
    ensures EndStep(ks, k) <= SliceStep(ks, k, i)
    ensures SliceStep(ks, k, i) + ks[k].width <= EndStep(ks, k + 1)
  {
    MulNonNeg(i, ks[k].width);
    MulMono(i + 1, Count(ks[k]), ks[k].width);
    assert (i + 1) * ks[k].width == i * ks[k].width + ks[k].width;
  }

  /** Kernel boundaries and slices are in the same order counted in slices and counted in steps. */
  lemma EndBeforeSlice(nSteps: nat, ks: seq<Kernel>, k: nat, k': nat, i: nat)
    requires ValidKernels(nSteps, ks) && k <= |ks| && k' < |ks| && i < Count(ks[k'])
    requires Base(ks, k) <= SliceIx(ks, k', i)
    ensures EndStep(ks, k) <= SliceStep(ks, k', i)
  {
    if k <= k' {
      EndMono(nSteps, ks, k, k');
      SliceWithinKernel(nSteps, ks, k', i);
    } else {
      BaseMono(ks, k' + 1, k);
      assert false;
    }
  }

  /** An earlier slice ends, in steps, before a later one begins. */
  lemma SlicesOrdered(nSteps: nat, ks: seq<Kernel>, k: nat, i: nat, k': nat, i': nat)
    requires ValidKernels(nSteps, ks) && k < |ks| && i < Count(ks[k]) && k' < |ks| && i' < Count(ks[k'])
    requires SliceIx(ks, k, i) < SliceIx(ks, k', i')
    ensures SliceStep(ks, k, i) + ks[k].width <= SliceStep(ks, k', i')
  {
    if k == k' {
      NextSliceStep(ks, k, i);
      MulMono(i + 1, i', ks[k].width);
    } else {
      SliceWithinKernel(nSteps, ks, k, i);
      if k < k' {
        BaseMono(ks, k + 1, k');
        EndMono(nSteps, ks, k + 1, k');
        SliceWithinKernel(nSteps, ks, k', i');
      } else {
        BaseMono(ks, k' + 1, k);
        assert false;
      }
    }
  }

  /** No slice runs over the end of the slot ring. */
  lemma NoStraddle(nSteps: nat, ks: seq<Kernel>, k: nat, i: nat)
    requires ValidKernels(nSteps, ks) && k < |ks|
    ensures SliceStep(ks, k, i) % nSteps + ks[k].width <= nSteps
  {
    var s, w := ks[k].slices, ks[k].width;
    var start := RoundUp(EndStep(ks, k), s * w);
    DivModFacts(start, s * w);
    DivModFacts(nSteps, s * w);
    MultipleStep(nSteps, s, w, start / (s * w), nSteps / (s * w), i);
  }

  lemma MultipleStep(n: nat, s: nat, w: nat, a: nat, b: nat, i: nat)
    requires w >= 1 && n >= 1 && n == b * (s * w)
    ensures (a * (s * w) + i * w) % n + w <= n
  {
    var x := a * (s * w) + i * w;
    var u, m := a * s + i, b * s;
    assert x == u * w && n == m * w;
    DivModFacts(x, n);
    var q := x / n;
    assert x % n == (u - q * m) * w;
    if u - q * m >= m {
      MulMono(m, u - q * m, w);
      assert false;
    }
    MulMono(u - q * m + 1, m, w);
    assert (u - q * m + 1) * w == (u - q * m) * w + w;
  }
}
