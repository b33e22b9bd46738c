/**
 The work FIFO between host and device (src/enqueue.cc, uploadWork and waitWorkFifoAvailable;
 src/device/common.h, ncclKernelMain). The host lays out the works of a plan in a ring of slots,
 chained per channel; each channel's block follows its chain and acknowledges the last work.
 Counters are kept unbounded here, but every decision looks only at their low 32 bits.
 */
module WorkFifo {
  import opened Arith

  const MODULUS: nat := 0x1_0000_0000
  const POSITIVE_MAX: nat := 0x7fff_ffff

  function W32(x: nat): nat { x % MODULUS }

  /** a - b in unsigned 32-bit arithmetic. */
  function Sub32(a: nat, b: nat): nat { (a - b) % MODULUS }

  predicate RollingLess32(a: nat, b: nat) { Sub32(a, b) > POSITIVE_MAX }

  function RollingMin32(a: nat, b: nat): nat { if Sub32(b, a) <= POSITIVE_MAX then a else b }

  // ---------------------------------------------------------------- where uploadWork puts the works

  /** Works queued per channel. */
  type Plan<W> = seq<seq<W>>

  /** Channels below `c` that have works. */
  function Below<W>(plan: Plan<W>, c: nat): nat
    requires c <= |plan|
  {
    if c == 0 then 0 else Below(plan, c - 1) + (if plan[c - 1] != [] then 1 else 0)
  }

  /** Works of channels below `c` other than each channel's first. */
  function Extra<W>(plan: Plan<W>, c: nat): nat
    requires c <= |plan|
  {
    if c == 0 then 0 else Extra(plan, c - 1) + (if plan[c - 1] != [] then |plan[c - 1]| - 1 else 0)
  }

  function ChannelCount<W>(plan: Plan<W>): nat { Below(plan, |plan|) }

  function WorkCount<W>(plan: Plan<W>): nat { Below(plan, |plan|) + Extra(plan, |plan|) }

  /** Slot number of the j-th work of channel `c` when the plan starts at `head`. */
  function WorkIx<W>(plan: Plan<W>, head: nat, c: nat, j: nat): nat
    requires c < |plan| && j < |plan[c]|
  {
    if j == 0 then head + Below(plan, c) else head + ChannelCount(plan) + Extra(plan, c) + (j - 1)
  }

  datatype Slot<W> = Slot(work: W, isLast: bool, workNext: int, doneAcks: nat)

  datatype Write<W> = Write(ix: nat, slot: Slot<W>)

  function SlotOf<W>(depth: nat, plan: Plan<W>, head: nat, c: nat, j: nat): Slot<W>
    requires depth >= 1 && c < |plan| && j < |plan[c]|
  {
    if j + 1 < |plan[c]| then
      Slot(plan[c][j], false, WorkIx(plan, head, c, j + 1) % depth - head % depth, 0)
    else
      Slot(plan[c][j], true, 0, WorkIx(plan, head, c, j) + 1)
  }

  function ChannelWrites<W>(depth: nat, plan: Plan<W>, head: nat, c: nat, count: nat): (ws: seq<Write<W>>)
    requires depth >= 1 && c < |plan| && count <= |plan[c]|
    ensures |ws| == count
  {
    seq(count, j requires 0 <= j < count => Write(WorkIx(plan, head, c, j), SlotOf(depth, plan, head, c, j)))
  }

  /** The slots written for the first `c` channels, in the order they are written. */
  function PlanWrites<W>(depth: nat, plan: Plan<W>, head: nat, c: nat): seq<Write<W>>
    requires depth >= 1 && c <= |plan|
  {
    if c == 0 then [] else PlanWrites(depth, plan, head, c - 1) + ChannelWrites(depth, plan, head, c - 1, |plan[c - 1]|)
  }

  /** The loop of uploadWork over channels and their queues, from slot `ixHead` on. */
  method UploadWork<W>(depth: nat, plan: Plan<W>, ixHead: nat) returns (writes: seq<Write<W>>, ixSent: nat)
    requires depth >= 1
    ensures writes == PlanWrites(depth, plan, ixHead, |plan|)
    ensures ixSent == ixHead + WorkCount(plan)
  {
    var channelCount := 0;
    for c := 0 to |plan|
      invariant channelCount == Below(plan, c)
    {
      if plan[c] != [] { channelCount := channelCount + 1; }
    }
    writes := [];
    ixSent := ixHead + channelCount;
    var channelsWithWork := 0;
    for c := 0 to |plan|
      invariant channelsWithWork == Below(plan, c)
      invariant ixSent == ixHead + ChannelCount(plan) + Extra(plan, c)
      invariant writes == PlanWrites(depth, plan, ixHead, c)
    {
      var ws;
      ws, ixSent := UploadChannel(depth, plan, ixHead, c, ixHead + channelsWithWork, ixSent);
      hide ChannelWrites;
      writes := writes + ws;
      if plan[c] != [] { channelsWithWork := channelsWithWork + 1; }
    }
  }

  /** The queue of one channel: its first work goes to slot `ix`, the others to those from `ixSent` on. */
  method UploadChannel<W>(depth: nat, plan: Plan<W>, ixHead: nat, c: nat, ix: nat, ixSent: nat) returns (writes: seq<Write<W>>, ixSent': nat)
    requires depth >= 1 && c < |plan| && ix == ixHead + Below(plan, c) && ixSent == ixHead + ChannelCount(plan) + Extra(plan, c)
    ensures writes == ChannelWrites(depth, plan, ixHead, c, |plan[c]|)
    ensures ixSent' == ixSent + (if plan[c] == [] then 0 else |plan[c]| - 1)
  {
    hide Below, Extra;
    writes, ixSent' := [], ixSent;
    var at, j := ix, 0;
    while j < |plan[c]|
      invariant 0 <= j <= |plan[c]|
      invariant j < |plan[c]| ==> at == WorkIx(plan, ixHead, c, j)
      invariant ixSent' == ixSent + (if j == 0 then 0 else if j < |plan[c]| then j else |plan[c]| - 1)
      invariant writes == ChannelWrites(depth, plan, ixHead, c, j)
    {
      var slot;
      if j + 1 < |plan[c]| {
        slot := Slot(plan[c][j], false, ixSent' % depth - ixHead % depth, 0);
      } else {
        slot := Slot(plan[c][j], true, 0, at + 1);
      }
      assert slot == SlotOf(depth, plan, ixHead, c, j);
      writes := writes + [Write(at, slot)];
      j := j + 1;
      if j < |plan[c]| { at, ixSent' := ixSent', ixSent' + 1; }
    }
  }

  /** Slot at which a plan starts: rounded up to the ring's end if its first works would cross it. */
  function PlanHead<W>(depth: nat, plan: Plan<W>, sent: nat): nat
    requires depth >= 1
  {
    if (sent + ChannelCount(plan) - 1) % depth < sent % depth then (sent + depth - 1) - (sent + depth - 1) % depth else sent
  }

  // ---------------------------------------------------------------- waitWorkFifoAvailable

  /** The poll found channel `c` with nothing outstanding. */
  predicate Quiesced(chanSent: seq<nat>, polled: seq<nat>, c: nat)
    requires c < |chanSent| && c < |polled|
  {
    W32(polled[c]) == W32(chanSent[c])
  }

  /** The smaller of two counters, chosen by their low 32 bits as rollingMin32 does. */
  function Earlier(a: nat, b: nat): nat { if RollingMin32(W32(a), W32(b)) == W32(a) then a else b }

  /** ackdAll after looking at the first `c` polled counters. */
  function AckdAll(sent: nat, chanSent: seq<nat>, polled: seq<nat>, c: nat): nat
    requires c <= |chanSent| && c <= |polled|
  {
    if c == 0 then sent
    else
      var a := AckdAll(sent, chanSent, polled, c - 1);
      if Quiesced(chanSent, polled, c - 1) then a else Earlier(a, polled[c - 1])
  }

  /** One round of waitWorkFifoAvailable over the counters it has just read. */
  method PollRound(sent: nat, chanSent: seq<nat>, polled: seq<nat>, done: seq<nat>)
    returns (ackdAll: nat, chanSent': seq<nat>, done': seq<nat>)
    requires |chanSent| == |polled| == |done|
    ensures ackdAll == AckdAll(sent, chanSent, polled, |polled|)
    ensures chanSent' == Settle(chanSent, chanSent, polled, ackdAll) && done' == Settle(done, chanSent, polled, ackdAll)
  {
    ackdAll := sent;
    for c := 0 to |polled|
      invariant ackdAll == AckdAll(sent, chanSent, polled, c)
    {
      if W32(polled[c]) != W32(chanSent[c]) {
        ackdAll := Earlier(ackdAll, polled[c]);
      }
    }
    chanSent', done' := chanSent, done;
    for c := 0 to |polled|
      invariant |chanSent'| == |done'| == |polled|
      invariant forall k :: 0 <= k < |polled| ==>
        && chanSent'[k] == (if k < c && Quiesced(chanSent, polled, k) then ackdAll else chanSent[k])
        && done'[k] == (if k < c && Quiesced(chanSent, polled, k) then ackdAll else done[k])
    {
      if W32(polled[c]) == W32(chanSent'[c]) {
        chanSent' := chanSent'[c := ackdAll];
        done' := done'[c := ackdAll];
      }
    }
  }

  /** Quiesced channels are brought up to `ackdAll` so that they do not fall too far behind. */
  function Settle(xs: seq<nat>, chanSent: seq<nat>, polled: seq<nat>, ackdAll: nat): (ys: seq<nat>)
    requires |xs| == |chanSent| == |polled|
    ensures |ys| == |xs|
  {
    seq(|xs|, c requires 0 <= c < |xs| => if Quiesced(chanSent, polled, c) then ackdAll else xs[c])
  }

  // ---------------------------------------------------------------- the machine

  /** Where the host is: idle, waiting for room for a plan with the counters polled so far, or writing its slots. */
  datatype Host<W> = Idle | Waiting(plan: Plan<W>, polled: seq<nat>) | Writing(plan: Plan<W>, k: nat)

  /** A launched kernel from one channel's point of view: where workHead points, and the block number. */
  datatype Launch = Launch(base: nat, y: nat)

  /** A channel's block: between kernels, or with a work loaded from the chain that started at `base`. */
  datatype Block<W> = Resting | Loaded(base: nat, slot: Slot<W>)

  /**
   `todo`, `queued` and `ran` are the specification's record of the slots each channel has still to
   load, the works the host has queued for it and the works it has loaded; no step looks at them.
   */
  datatype Sys<W> = Sys(sent: nat, ackdMin: nat, chanSent: seq<nat>, done: seq<nat>, heap: seq<Slot<W>>,
                        host: Host<W>, launches: seq<seq<Launch>>, blocks: seq<Block<W>>,
                        todo: seq<seq<Entry<W>>>, queued: seq<seq<W>>, ran: seq<seq<W>>)

  datatype Entry<W> = Entry(ix: nat, head: nat, y: nat, first: bool, slot: Slot<W>)

  datatype Event<W> =
    | Begin(plan: Plan<W>)      // round up and start waiting
    | Poll                      // read the next channel's done counter
    | Decide                    // all counters read: recompute ackdMin
    | Proceed                   // enough room: start writing
    | WriteOne                  // write the next slot
    | Publish                   // all slots written: advance and launch
    | DevStart(c: nat)          // the channel's block loads its first work
    | DevNext(c: nat)           // ... follows workNext
    | DevAck(c: nat)            // ... acknowledges the last work

  predicate Shaped<W>(channels: nat, depth: nat, s: Sys<W>) {
    && |s.chanSent| == |s.done| == |s.launches| == |s.blocks| == channels
    && |s.todo| == |s.queued| == |s.ran| == channels
    && |s.heap| == depth
  }

  predicate NeedWait<W>(depth: nat, s: Sys<W>, plan: Plan<W>) {
    RollingLess32(W32(s.ackdMin + depth), W32(s.sent + WorkCount(plan)))
  }

  /** A plan for these channels, with some work and no more than the ring can hold. */
  predicate PlanFits<W>(channels: nat, depth: nat, plan: Plan<W>) {
    |plan| == channels && 1 <= WorkCount(plan) <= depth
  }

  predicate Enabled<W>(channels: nat, depth: nat, s: Sys<W>, e: Event<W>)
    requires depth >= 1 && Shaped(channels, depth, s)
  {
    match e
    case Begin(plan) => s.host.Idle? && PlanFits(channels, depth, plan)
    case Poll => s.host.Waiting? && NeedWait(depth, s, s.host.plan) && |s.host.polled| < channels
    case Decide => s.host.Waiting? && |s.host.polled| == channels
    case Proceed => s.host.Waiting? && s.host.polled == [] && !NeedWait(depth, s, s.host.plan)
    case WriteOne => s.host.Writing? && s.host.k < |PlanWrites(depth, s.host.plan, s.sent, |s.host.plan|)|
    case Publish => s.host.Writing? && |s.host.plan| == channels &&
                    s.host.k == |PlanWrites(depth, s.host.plan, s.sent, |s.host.plan|)|
    case DevStart(c) => c < channels && s.blocks[c].Resting? && s.launches[c] != [] &&
                        s.launches[c][0].base + s.launches[c][0].y < depth
    case DevNext(c) => c < channels && s.blocks[c].Loaded? && !s.blocks[c].slot.isLast &&
                       0 <= s.blocks[c].base + s.blocks[c].slot.workNext < depth
    case DevAck(c) => c < channels && s.blocks[c].Loaded? && s.blocks[c].slot.isLast
  }

  function PlanEntries<W>(depth: nat, plan: Plan<W>, head: nat, c: nat): (es: seq<Entry<W>>)
    requires depth >= 1 && c < |plan|
    ensures |es| == |plan[c]|
  {
    seq(|plan[c]|, j requires 0 <= j < |plan[c]| =>
      Entry(WorkIx(plan, head, c, j), head, Below(plan, c), j == 0, SlotOf(depth, plan, head, c, j)))
  }

  function LoadSlot<W>(s: Sys<W>, c: nat, base: nat, addr: nat): Sys<W>
    requires c < |s.blocks| && c < |s.todo| && c < |s.ran| && addr < |s.heap|
  {
    s.(blocks := s.blocks[c := Loaded(base, s.heap[addr])],
       ran := s.ran[c := s.ran[c] + [s.heap[addr].work]],
       todo := s.todo[c := if s.todo[c] == [] then [] else s.todo[c][1..]])
  }

  function Launched<W>(depth: nat, s: Sys<W>, plan: Plan<W>): seq<seq<Launch>>
    requires depth >= 1 && |s.launches| == |plan|
  {
    seq(|plan|, c requires 0 <= c < |plan| =>
      if plan[c] == [] then s.launches[c] else s.launches[c] + [Launch(s.sent % depth, Below(plan, c))])
  }

  function Sent<W>(s: Sys<W>, plan: Plan<W>): seq<nat>
    requires |s.chanSent| == |plan|
  {
    seq(|plan|, c requires 0 <= c < |plan| =>
      if plan[c] == [] then s.chanSent[c] else WorkIx(plan, s.sent, c, |plan[c]| - 1) + 1)
  }

  function Apply<W>(channels: nat, depth: nat, s: Sys<W>, e: Event<W>): (s': Sys<W>)
    requires depth >= 1 && Shaped(channels, depth, s) && Enabled(channels, depth, s, e)
    ensures Shaped(channels, depth, s')
  {
    match e
    case Begin(plan) => s.(sent := PlanHead(depth, plan, s.sent), host := Waiting(plan, []))
    case Poll => s.(host := Waiting(s.host.plan, s.host.polled + [s.done[|s.host.polled|]]))
    case Decide =>
      var a := AckdAll(s.sent, s.chanSent, s.host.polled, channels);
      s.(ackdMin := a, chanSent := Settle(s.chanSent, s.chanSent, s.host.polled, a),
         done := Settle(s.done, s.chanSent, s.host.polled, a), host := Waiting(s.host.plan, []))
    case Proceed => s.(host := Writing(s.host.plan, 0))
    case WriteOne =>
      var w := PlanWrites(depth, s.host.plan, s.sent, |s.host.plan|)[s.host.k];
      s.(heap := s.heap[w.ix % depth := w.slot], host := Writing(s.host.plan, s.host.k + 1))
    case Publish =>
      var plan := s.host.plan;
      s.(chanSent := Sent(s, plan), launches := Launched(depth, s, plan), sent := s.sent + WorkCount(plan), host := Idle,
         todo := seq(channels, c requires 0 <= c < channels => s.todo[c] + PlanEntries(depth, plan, s.sent, c)),
         queued := seq(channels, c requires 0 <= c < channels => s.queued[c] + plan[c]))
    case DevStart(c) =>
      var l := s.launches[c][0];
      LoadSlot(s.(launches := s.launches[c := s.launches[c][1..]]), c, l.base, l.base + l.y)
    case DevNext(c) => LoadSlot(s, c, s.blocks[c].base, s.blocks[c].base + s.blocks[c].slot.workNext)
    case DevAck(c) => s.(done := s.done[c := s.blocks[c].slot.doneAcks], blocks := s.blocks[c := Resting])
  }

  function Start<W>(channels: nat, depth: nat, blank: Slot<W>): Sys<W> {
    Sys(0, 0, seq(channels, _ => 0), seq(channels, _ => 0), seq(depth, _ => blank), Idle,
        seq(channels, _ => []), seq(channels, _ => Resting), seq(channels, _ => []), seq(channels, _ => []), seq(channels, _ => []))
  }

  ghost predicate Run<W>(channels: nat, depth: nat, blank: Slot<W>, trace: seq<Sys<W>>, events: seq<Event<W>>)
    requires depth >= 1
  {
    && |trace| == |events| + 1
    && trace[0] == Start(channels, depth, blank)
    && (forall i :: 0 <= i < |events| ==>
          && Shaped(channels, depth, trace[i]) && Enabled(channels, depth, trace[i], events[i])
          && trace[i + 1] == Apply(channels, depth, trace[i], events[i]))
  }
}
