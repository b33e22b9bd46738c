/** Safety and progress of the Simple FIFO over every interleaving of the two ends. */
module SimpleFifoSafety {
  import opened Arith
  import opened SimpleFifo

  /** Slices an end has finished in the whole run. */
  function Done(ks: seq<Kernel>, s: Side): nat
    requires s.kernel <= |ks|
  {
    SliceIx(ks, s.kernel, s.slice)
  }

  /** An end's counters are where the schedule puts them: both ends count steps the same way. */
  ghost predicate SideOk(nSteps: nat, ks: seq<Kernel>, s: Side)
    requires ValidKernels(nSteps, ks)
  {
    && s.kernel <= |ks|
    && s.saved == EndStep(ks, s.kernel)
    && (s.running ==> s.kernel < |ks| && s.slice <= Count(ks[s.kernel]) && s.step == SliceStep(ks, s.kernel, s.slice))
    && (!s.running ==> s.slice == 0)
  }

  /** The slots of slice `i` of kernel `k` hold `v`. */
  ghost predicate Intact<V>(nSteps: nat, ks: seq<Kernel>, slots: seq<V>, k: nat, i: nat, v: V)
    requires ValidKernels(nSteps, ks) && |slots| == nSteps && k < |ks|
  {
    forall j :: 0 <= j < nSteps && InSlice(nSteps, SliceStep(ks, k, i), ks[k].width, j) ==> slots[j] == v
  }

  ghost predicate CountersOk<V>(nSteps: nat, ks: seq<Kernel>, c: Conn<V>)
    requires ValidKernels(nSteps, ks)
  {
    && SideOk(nSteps, ks, c.snd) && SideOk(nSteps, ks, c.rcv)
    && |c.slots| == nSteps
    && c.head == (if c.rcv.running then c.rcv.step else c.rcv.saved)
    && c.tail <= (if c.snd.running && c.snd.slice > 0 then c.snd.step else c.snd.saved)
    && c.snd.cache <= c.head && c.rcv.cache <= c.tail
    && Done(ks, c.rcv) <= Done(ks, c.snd) == |c.sent|
    && c.got == c.sent[..Done(ks, c.rcv)]
    && |c.pending| <= 1
    && (c.pending != [] ==> Busy(ks, c.snd) && c.snd.cache + nSteps >= c.snd.step + ks[c.snd.kernel].width)
  }

  /** Every slice posted and not yet released is intact, and so is the one stored but not posted. */
  ghost predicate SlotsOk<V>(nSteps: nat, ks: seq<Kernel>, c: Conn<V>)
    requires ValidKernels(nSteps, ks) && CountersOk(nSteps, ks, c)
  {
    && (forall k, i :: 0 <= k < |ks| && 0 <= i < Count(ks[k]) && Done(ks, c.rcv) <= SliceIx(ks, k, i) < Done(ks, c.snd) ==>
          Intact(nSteps, ks, c.slots, k, i, c.sent[SliceIx(ks, k, i)]))
    && (c.pending != [] ==> Intact(nSteps, ks, c.slots, c.snd.kernel, c.snd.slice, c.pending[0]))
  }

  ghost predicate Inv<V>(nSteps: nat, ks: seq<Kernel>, c: Conn<V>)
    requires ValidKernels(nSteps, ks)
  {
    CountersOk(nSteps, ks, c) && SlotsOk(nSteps, ks, c)
  }

  /** `head` never passes a slice that is still to be received. */
  lemma HeadBehind<V>(nSteps: nat, ks: seq<Kernel>, c: Conn<V>, k: nat, i: nat)
    requires ValidKernels(nSteps, ks) && CountersOk(nSteps, ks, c) && k < |ks| && i < Count(ks[k])
    requires Done(ks, c.rcv) <= SliceIx(ks, k, i)
    ensures c.head <= SliceStep(ks, k, i)
  {
    hide SliceStep;
    var r := c.rcv;
    if r.running {
      if r.slice < Count(ks[r.kernel]) {
        if Done(ks, r) < SliceIx(ks, k, i) {
          SlicesOrdered(nSteps, ks, r.kernel, r.slice, k, i);
        } else {
          SameSlice(ks, r.kernel, r.slice, k, i);
        }
      } else {
        EndBeforeSlice(nSteps, ks, r.kernel + 1, k, i);
        assert EndStep(ks, r.kernel + 1) == SliceStep(ks, r.kernel, r.slice);
      }
    } else {
      EndBeforeSlice(nSteps, ks, r.kernel, k, i);
    }
  }

  /** A slice is identified by its number. */
  lemma SameSlice(ks: seq<Kernel>, k: nat, i: nat, k': nat, i': nat)
    requires k < |ks| && i < Count(ks[k]) && k' < |ks| && i' < Count(ks[k']) && SliceIx(ks, k, i) == SliceIx(ks, k', i')
    ensures k == k' && i == i'
  {
    if k < k' {
      BaseMono(ks, k + 1, k');
      assert false;
    } else if k' < k {
      BaseMono(ks, k' + 1, k);
      assert false;
    }
  }

  /** `tail` never passes a slice that has not been posted. */
  lemma TailBehind<V>(nSteps: nat, ks: seq<Kernel>, c: Conn<V>, k: nat, i: nat)
    requires ValidKernels(nSteps, ks) && CountersOk(nSteps, ks, c) && k < |ks| && i < Count(ks[k])
    requires Done(ks, c.snd) <= SliceIx(ks, k, i)
    ensures c.tail <= SliceStep(ks, k, i)
  {
    hide SliceStep, EndStep;
    var s := c.snd;
    if s.running && s.slice > 0 {
      SlicesOrdered(nSteps, ks, s.kernel, s.slice - 1, k, i);
      NextSliceStep(ks, s.kernel, s.slice - 1);
    } else {
      EndBeforeSlice(nSteps, ks, s.kernel, k, i);
    }
  }

  /** The receiver only takes slices that have been posted. */
  lemma ReceivesOnlyPosted<V>(nSteps: nat, ks: seq<Kernel>, c: Conn<V>)
    requires ValidKernels(nSteps, ks) && CountersOk(nSteps, ks, c) && Enabled(nSteps, ks, c, Receive)
    ensures Done(ks, c.rcv) < Done(ks, c.snd)
  {
    hide SliceStep, EndStep;
    if Done(ks, c.snd) <= Done(ks, c.rcv) {
      TailBehind(nSteps, ks, c, c.rcv.kernel, c.rcv.slice);
    }
  }

  lemma WindowDisjoint(n: nat, a: nat, wa: nat, b: nat, wb: nat, j: nat)
    requires n >= 1 && a + wa <= b && b + wb <= a + n
    requires a % n + wa <= n && b % n + wb <= n
    ensures !(InSlice(n, a, wa, j) && InSlice(n, b, wb, j))
  {
    if InSlice(n, a, wa, j) && InSlice(n, b, wb, j) {
      DivModFacts(a, n);
      DivModFacts(b, n);
      var p, q := a / n, b / n;
      assert (p + 1) * n == p * n + n;
      assert p * n + j < q * n + j < p * n + j + n;
      if q <= p {
        MulMono(q, p, n);
        assert false;
      }
      MulMono(p + 1, q, n);
      assert false;
    }
  }

  /**
   The credit check protects the slots: while the sender may store its slice, no slot it writes
   belongs to a slice the receiver has not released.
   */
  lemma StoreIsSafe<V>(nSteps: nat, ks: seq<Kernel>, c: Conn<V>, k: nat, i: nat, j: nat)
    requires ValidKernels(nSteps, ks) && CountersOk(nSteps, ks, c) && Busy(ks, c.snd)
    requires c.snd.cache + nSteps >= c.snd.step + ks[c.snd.kernel].width
    requires k < |ks| && i < Count(ks[k]) && Done(ks, c.rcv) <= SliceIx(ks, k, i) < Done(ks, c.snd)
    ensures !(InSlice(nSteps, SliceStep(ks, k, i), ks[k].width, j) &&
              InSlice(nSteps, c.snd.step, ks[c.snd.kernel].width, j))
  {
    hide SliceStep, EndStep, InSlice;
    HeadBehind(nSteps, ks, c, k, i);
    SlicesOrdered(nSteps, ks, k, i, c.snd.kernel, c.snd.slice);
    NoStraddle(nSteps, ks, k, i);
    NoStraddle(nSteps, ks, c.snd.kernel, c.snd.slice);
    WindowDisjoint(nSteps, SliceStep(ks, k, i), ks[k].width, c.snd.step, ks[c.snd.kernel].width, j);
  }

  // ---------------------------------------------------------------- every event keeps the invariant

  lemma StartInv<V>(nSteps: nat, ks: seq<Kernel>, blank: V)
    requires ValidKernels(nSteps, ks)
    ensures Inv(nSteps, ks, Start(nSteps, blank))
  {
  }

  lemma StoreInv<V>(nSteps: nat, ks: seq<Kernel>, c: Conn<V>, v: V)
    requires ValidKernels(nSteps, ks) && Inv(nSteps, ks, c) && Enabled(nSteps, ks, c, Store(v))
    ensures Inv(nSteps, ks, Apply(nSteps, ks, c, Store(v)))
  {
    hide SliceStep, EndStep, Base, InSlice;
    var c' := Apply(nSteps, ks, c, Store(v));
    forall k, i | 0 <= k < |ks| && 0 <= i < Count(ks[k]) && Done(ks, c.rcv) <= SliceIx(ks, k, i) < Done(ks, c.snd)
      ensures Intact(nSteps, ks, c'.slots, k, i, c.sent[SliceIx(ks, k, i)])
    {
      assert Intact(nSteps, ks, c.slots, k, i, c.sent[SliceIx(ks, k, i)]);
      forall j | 0 <= j < nSteps && InSlice(nSteps, SliceStep(ks, k, i), ks[k].width, j)
        ensures c'.slots[j] == c.sent[SliceIx(ks, k, i)]
      {
        StoreIsSafe(nSteps, ks, c, k, i, j);
      }
    }
  }

  lemma PostInv<V>(nSteps: nat, ks: seq<Kernel>, c: Conn<V>)
    requires ValidKernels(nSteps, ks) && Inv(nSteps, ks, c) && Enabled<V>(nSteps, ks, c, Post)
    ensures Inv(nSteps, ks, Apply(nSteps, ks, c, Post))
  {
    hide SliceStep, EndStep, Base, InSlice, Intact;
    var s := c.snd;
    NextSliceStep(ks, s.kernel, s.slice);
    SliceWithinKernel(nSteps, ks, s.kernel, s.slice);
    var c' := Apply<V>(nSteps, ks, c, Post);
    assert c'.sent[..Done(ks, c.rcv)] == c.sent[..Done(ks, c.rcv)];
    forall k, i | 0 <= k < |ks| && 0 <= i < Count(ks[k]) && Done(ks, c'.rcv) <= SliceIx(ks, k, i) < Done(ks, c'.snd)
      ensures Intact(nSteps, ks, c'.slots, k, i, c'.sent[SliceIx(ks, k, i)])
    {
      if SliceIx(ks, k, i) == Done(ks, s) {
        SameSlice(ks, k, i, s.kernel, s.slice);
      } else {
        assert Intact(nSteps, ks, c.slots, k, i, c.sent[SliceIx(ks, k, i)]);
      }
    }
  }

  lemma ReceiveInv<V>(nSteps: nat, ks: seq<Kernel>, c: Conn<V>)
    requires ValidKernels(nSteps, ks) && Inv(nSteps, ks, c) && Enabled<V>(nSteps, ks, c, Receive)
    ensures Inv(nSteps, ks, Apply(nSteps, ks, c, Receive))
  {
    hide SliceStep, EndStep, Base;
    ReceivesOnlyPosted(nSteps, ks, c);
    var r := c.rcv;
    NoStraddle(nSteps, ks, r.kernel, r.slice);
    assert Intact(nSteps, ks, c.slots, r.kernel, r.slice, c.sent[SliceIx(ks, r.kernel, r.slice)]);
    NextSliceStep(ks, r.kernel, r.slice);
  }

  /** Loading and ending a kernel: both ends round to the same step and save the same step. */
  lemma LoadStep(nSteps: nat, ks: seq<Kernel>, s: Side, peer: nat)
    requires ValidKernels(nSteps, ks) && SideOk(nSteps, ks, s) && !s.running && s.kernel < |ks|
    ensures SideOk(nSteps, ks, Load(ks, s, peer)) && Done(ks, Load(ks, s, peer)) == Done(ks, s)
    ensures Load(ks, s, peer).step >= s.saved
  {
  }

  lemma EndKernel(nSteps: nat, ks: seq<Kernel>, s: Side)
    requires ValidKernels(nSteps, ks) && SideOk(nSteps, ks, s) && s.running && s.slice == Count(ks[s.kernel])
    ensures var s' := s.(running := false, kernel := s.kernel + 1, slice := 0, saved := s.step);
      SideOk(nSteps, ks, s') && Done(ks, s') == Done(ks, s)
    ensures s.slice == 0 ==> s.step >= s.saved
  {
  }

  lemma SlotsUnchanged<V>(nSteps: nat, ks: seq<Kernel>, c: Conn<V>, c': Conn<V>)
    requires ValidKernels(nSteps, ks) && Inv(nSteps, ks, c) && CountersOk(nSteps, ks, c')
    requires c'.slots == c.slots && c'.sent == c.sent && c'.pending == c.pending
    requires Done(ks, c'.snd) == Done(ks, c.snd) && Done(ks, c'.rcv) == Done(ks, c.rcv)
    requires c.pending != [] ==> c'.snd.kernel == c.snd.kernel && c'.snd.slice == c.snd.slice
    ensures Inv(nSteps, ks, c')
  {
    hide Intact;
    forall k, i | 0 <= k < |ks| && 0 <= i < Count(ks[k]) && Done(ks, c'.rcv) <= SliceIx(ks, k, i) < Done(ks, c'.snd)
      ensures Intact(nSteps, ks, c'.slots, k, i, c'.sent[SliceIx(ks, k, i)])
    {
      assert Intact(nSteps, ks, c.slots, k, i, c.sent[SliceIx(ks, k, i)]);
    }
  }

  lemma SendKernelInv<V>(nSteps: nat, ks: seq<Kernel>, c: Conn<V>, e: Event<V>)
    requires ValidKernels(nSteps, ks) && Inv(nSteps, ks, c) && Enabled(nSteps, ks, c, e)
    requires e.SendLoad? || e.SendPoll? || e.SendEnd?
    ensures Inv(nSteps, ks, Apply(nSteps, ks, c, e))
  {
    hide SlotsOk, Base, EndStep, SliceStep;
    match e {
      case SendLoad => LoadStep(nSteps, ks, c.snd, c.head);
      case SendEnd => EndKernel(nSteps, ks, c.snd);
      case SendPoll =>
    }
    SlotsUnchanged(nSteps, ks, c, Apply(nSteps, ks, c, e));
  }

  lemma RecvKernelInv<V>(nSteps: nat, ks: seq<Kernel>, c: Conn<V>, e: Event<V>)
    requires ValidKernels(nSteps, ks) && Inv(nSteps, ks, c) && Enabled(nSteps, ks, c, e)
    requires e.RecvLoad? || e.RecvPoll? || e.RecvEnd?
    ensures Inv(nSteps, ks, Apply(nSteps, ks, c, e))
  {
    hide SlotsOk, Base, EndStep, SliceStep;
    match e {
      case RecvLoad => LoadStep(nSteps, ks, c.rcv, c.tail);
      case RecvEnd => EndKernel(nSteps, ks, c.rcv);
      case RecvPoll =>
    }
    SlotsUnchanged(nSteps, ks, c, Apply(nSteps, ks, c, e));
  }

  lemma EventInv<V>(nSteps: nat, ks: seq<Kernel>, c: Conn<V>, e: Event<V>)
    requires ValidKernels(nSteps, ks) && Inv(nSteps, ks, c) && Enabled(nSteps, ks, c, e)
    ensures Inv(nSteps, ks, Apply(nSteps, ks, c, e))
  {
    hide Inv, Apply;
    match e
    case Store(v) => StoreInv(nSteps, ks, c, v);
    case Post => PostInv(nSteps, ks, c);
    case Receive => ReceiveInv(nSteps, ks, c);
    case SendLoad => SendKernelInv(nSteps, ks, c, e);
    case SendPoll => SendKernelInv(nSteps, ks, c, e);
    case SendEnd => SendKernelInv(nSteps, ks, c, e);
    case RecvLoad => RecvKernelInv(nSteps, ks, c, e);
    case RecvPoll => RecvKernelInv(nSteps, ks, c, e);
    case RecvEnd => RecvKernelInv(nSteps, ks, c, e);
  }

  lemma {:induction false} RunInv<V>(nSteps: nat, ks: seq<Kernel>, blank: V, trace: seq<Conn<V>>, events: seq<Event<V>>, i: nat)
    requires ValidKernels(nSteps, ks) && Run(nSteps, ks, blank, trace, events) && i < |trace|
    ensures Inv(nSteps, ks, trace[i])
  {
    hide Inv, Apply, Enabled;
    if i == 0 {
      StartInv(nSteps, ks, blank);
    } else {
      RunInv(nSteps, ks, blank, trace, events, i - 1);
      EventInv(nSteps, ks, trace[i - 1], events[i - 1]);
    }
  }

  // ---------------------------------------------------------------- what a run guarantees

  /** In every state of every run the receiver has got exactly the first slices sent, unchanged and in order. */
  lemma DeliveredInOrder<V>(nSteps: nat, ks: seq<Kernel>, blank: V, trace: seq<Conn<V>>, events: seq<Event<V>>, i: nat)
    requires ValidKernels(nSteps, ks) && Run(nSteps, ks, blank, trace, events) && i < |trace|
    ensures trace[i].got <= trace[i].sent
  {
    hide Apply, Enabled;
    RunInv(nSteps, ks, blank, trace, events, i);
  }

  /** At the same slice both ends have the same step, and after the same kernels they have saved the same step. */
  lemma StepsAgree<V>(nSteps: nat, ks: seq<Kernel>, blank: V, trace: seq<Conn<V>>, events: seq<Event<V>>, i: nat)
    requires ValidKernels(nSteps, ks) && Run(nSteps, ks, blank, trace, events) && i < |trace|
    ensures var c := trace[i];
      && c.snd.kernel <= |ks| && c.rcv.kernel <= |ks|
      && (Busy(ks, c.snd) && Busy(ks, c.rcv) && |c.sent| == |c.got| ==> c.snd.step == c.rcv.step)
      && (c.snd.kernel == c.rcv.kernel ==> c.snd.saved == c.rcv.saved)
  {
    hide Apply, Enabled, SliceStep, EndStep, SlotsOk;
    RunInv(nSteps, ks, blank, trace, events, i);
    var c := trace[i];
    if Busy(ks, c.snd) && Busy(ks, c.rcv) && |c.sent| == |c.got| {
      SameSlice(ks, c.snd.kernel, c.snd.slice, c.rcv.kernel, c.rcv.slice);
    }
  }

  // ---------------------------------------------------------------- progress

  /** `tail` covers every slice posted. */
  ghost predicate TailOk<V>(nSteps: nat, ks: seq<Kernel>, c: Conn<V>)
    requires ValidKernels(nSteps, ks) && CountersOk(nSteps, ks, c)
  {
    forall k, i :: 0 <= k < |ks| && 0 <= i < Count(ks[k]) && SliceIx(ks, k, i) < Done(ks, c.snd) ==>
      SliceStep(ks, k, i) + ks[k].width <= c.tail
  }

  lemma TailEvent<V>(nSteps: nat, ks: seq<Kernel>, c: Conn<V>, e: Event<V>)
    requires ValidKernels(nSteps, ks) && Inv(nSteps, ks, c) && TailOk(nSteps, ks, c) && Enabled(nSteps, ks, c, e)
    requires CountersOk(nSteps, ks, Apply(nSteps, ks, c, e))
    ensures TailOk(nSteps, ks, Apply(nSteps, ks, c, e))
  {
    hide SliceStep, EndStep, SlotsOk;
    var c' := Apply(nSteps, ks, c, e);
    forall k, i | 0 <= k < |ks| && 0 <= i < Count(ks[k]) && SliceIx(ks, k, i) < Done(ks, c'.snd)
      ensures SliceStep(ks, k, i) + ks[k].width <= c'.tail
    {
      if e.Post? {
        var s := c.snd;
        if SliceIx(ks, k, i) < Done(ks, s) {
          SlicesOrdered(nSteps, ks, k, i, s.kernel, s.slice);
        } else {
          SameSlice(ks, k, i, s.kernel, s.slice);
        }
      } else {
        assert Done(ks, c'.snd) == Done(ks, c.snd) && c'.tail == c.tail;
      }
    }
  }

  lemma {:induction false} RunTail<V>(nSteps: nat, ks: seq<Kernel>, blank: V, trace: seq<Conn<V>>, events: seq<Event<V>>, i: nat)
    requires ValidKernels(nSteps, ks) && Run(nSteps, ks, blank, trace, events) && i < |trace|
    ensures Inv(nSteps, ks, trace[i]) && TailOk(nSteps, ks, trace[i])
  {
    hide Apply, Enabled, SlotsOk, TailOk, SliceStep, EndStep;
    RunInv(nSteps, ks, blank, trace, events, i);
    if i == 0 {
      StartTail(nSteps, ks, blank);
    } else {
      RunTail(nSteps, ks, blank, trace, events, i - 1);
      TailEvent(nSteps, ks, trace[i - 1], events[i - 1]);
    }
  }

  lemma StartTail<V>(nSteps: nat, ks: seq<Kernel>, blank: V)
    requires ValidKernels(nSteps, ks) && CountersOk(nSteps, ks, Start(nSteps, blank))
    ensures TailOk(nSteps, ks, Start(nSteps, blank))
  {
  }

  /** An end that still has kernels to run. */
  predicate Unfinished(ks: seq<Kernel>, s: Side) { s.kernel < |ks| }

  /** The event is possible, perhaps after looking at the peer's counter once more. */
  ghost predicate Possible<V>(nSteps: nat, ks: seq<Kernel>, c: Conn<V>, e: Event<V>)
    requires ValidKernels(nSteps, ks)
  {
    Enabled(nSteps, ks, c.(snd := c.snd.(cache := c.head), rcv := c.rcv.(cache := c.tail)), e)
  }

  lemma ReceiverCanMove<V>(nSteps: nat, ks: seq<Kernel>, c: Conn<V>)
    requires ValidKernels(nSteps, ks) && Inv(nSteps, ks, c) && TailOk(nSteps, ks, c)
    requires Busy(ks, c.rcv) && Done(ks, c.rcv) < Done(ks, c.snd)
    ensures Possible(nSteps, ks, c, Receive)
  {
    hide SliceStep, EndStep, SlotsOk;
    NoStraddle(nSteps, ks, c.rcv.kernel, c.rcv.slice);
    DivModFacts(c.rcv.step, nSteps);
    assert SliceIx(ks, c.rcv.kernel, c.rcv.slice) < Done(ks, c.snd);
  }

  lemma SenderCanMove<V>(nSteps: nat, ks: seq<Kernel>, c: Conn<V>, v: V)
    requires ValidKernels(nSteps, ks) && Inv(nSteps, ks, c)
    requires Busy(ks, c.snd) && Busy(ks, c.rcv) && Done(ks, c.rcv) == Done(ks, c.snd) && c.pending == []
    ensures Possible(nSteps, ks, c, Store(v))
  {
    hide SliceStep, EndStep, SlotsOk;
    SameSlice(ks, c.snd.kernel, c.snd.slice, c.rcv.kernel, c.rcv.slice);
    NoStraddle(nSteps, ks, c.snd.kernel, c.snd.slice);
    DivModFacts(c.snd.step, nSteps);
  }

  /** An end inside a kernel with slices left has not done all there is to do. */
  lemma BusyIsBehind(ks: seq<Kernel>, s: Side, t: Side)
    requires Busy(ks, s) && t.kernel == |ks|
    ensures Done(ks, s) < Done(ks, t)
  {
    BaseMono(ks, s.kernel + 1, |ks|);
  }

  /** The connection never blocks: until both ends have run all kernels, one of them can do something. */
  lemma NeverBlocks<V>(nSteps: nat, ks: seq<Kernel>, blank: V, trace: seq<Conn<V>>, events: seq<Event<V>>, i: nat)
    requires ValidKernels(nSteps, ks) && Run(nSteps, ks, blank, trace, events) && i < |trace|
    requires Unfinished(ks, trace[i].snd) || Unfinished(ks, trace[i].rcv)
    ensures exists e: Event<V> :: !e.SendPoll? && !e.RecvPoll? && Possible(nSteps, ks, trace[i], e)
  {
    hide Apply, SliceStep, EndStep, SlotsOk, TailOk;
    RunTail(nSteps, ks, blank, trace, events, i);
    var c := trace[i];
    if Unfinished(ks, c.snd) && !Busy(ks, c.snd) {
      assert Possible(nSteps, ks, c, if c.snd.running then SendEnd else SendLoad);
    } else if Unfinished(ks, c.rcv) && !Busy(ks, c.rcv) {
      assert Possible(nSteps, ks, c, if c.rcv.running then RecvEnd else RecvLoad);
    } else if c.pending != [] {
      assert Possible(nSteps, ks, c, Post);
    } else if !Unfinished(ks, c.snd) {
      BusyIsBehind(ks, c.rcv, c.snd);
      ReceiverCanMove(nSteps, ks, c);
    } else if !Unfinished(ks, c.rcv) {
      BusyIsBehind(ks, c.snd, c.rcv);
      assert false;
    } else if Done(ks, c.rcv) < Done(ks, c.snd) {
      ReceiverCanMove(nSteps, ks, c);
    } else {
      SenderCanMove(nSteps, ks, c, blank);
    }
  }

  // ---------------------------------------------------------------- as a bounded queue

  /**
   Within a kernel the connection is a queue of NCCL_STEPS / width slices: the sender's credit check
   is "not full" and the receiver's check is "not empty".
   */
  lemma IsBoundedQueue<V>(nSteps: nat, ks: seq<Kernel>, blank: V, trace: seq<Conn<V>>, events: seq<Event<V>>, i: nat)
    requires ValidKernels(nSteps, ks) && Run(nSteps, ks, blank, trace, events) && i < |trace|
    requires trace[i].snd.kernel == trace[i].rcv.kernel && Busy(ks, trace[i].snd) && Busy(ks, trace[i].rcv) && trace[i].pending == []
    ensures var c, width := trace[i], ks[trace[i].snd.kernel].width;
      && |c.got| <= |c.sent|
      && (Possible(nSteps, ks, c, Store(blank)) <==> |c.sent| - |c.got| < nSteps / width)
      && (Possible(nSteps, ks, c, Receive) <==> |c.got| < |c.sent|)
  {
    hide Apply, SlotsOk, TailOk, EndStep;
    RunTail(nSteps, ks, blank, trace, events, i);
    var c := trace[i];
    var k := ks[c.snd.kernel];
    WidthDivides(nSteps, k);
    var m, d := nSteps / k.width, c.snd.slice - c.rcv.slice;
    assert c.snd.step - c.rcv.step == d * k.width by {
      assert c.snd.slice * k.width - c.rcv.slice * k.width == d * k.width;
    }
    if d < m {
      MulMono(d + 1, m, k.width);
    } else {
      MulMono(m, d, k.width);
    }
    assert (d + 1) * k.width == d * k.width + k.width;
    if Done(ks, c.rcv) < Done(ks, c.snd) {
      ReceiverCanMove(nSteps, ks, c);
    } else if Possible(nSteps, ks, c, Receive) {
      TailBehind(nSteps, ks, c, c.rcv.kernel, c.rcv.slice);
    }
  }

  lemma WidthDivides(nSteps: nat, k: Kernel)
    requires ValidKernel(nSteps, k)
    ensures nSteps == (nSteps / k.width) * k.width
  {
    var q := nSteps / (k.slices * k.width);
    DivModFacts(nSteps, k.slices * k.width);
    assert nSteps == (q * k.slices) * k.width;
    DivUnique(nSteps, k.width, q * k.slices, 0);
  }
}
