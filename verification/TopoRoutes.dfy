/**
 What channels take of a node (the search patterns of src/graph/search.cc): where a recorded channel runs,
 hop by hop between NICs, GPUs and the NVSwitch, what each hop costs, and when a node can carry all of them.
 */
module TopoRoutes {
  import opened Arith
  import opened TopoLinks
  import opened TopoGraph

  // ---------------------------------------------------------------- where a channel runs

  /** A place a channel passes, as it is recorded: the rank of a GPU, the id of a NIC, or the NVSwitch. */
  datatype Stop = GpuStop(rank: int) | NicStop(id: int) | SwitchStop

  /** From one place to the next, with one share of the bandwidth or several. */
  datatype Leg = Leg(a: Stop, b: Stop, mult: nat)

  /** A channel goes back to a NIC from its last GPU, its second, its first, or its first two. */
  predicate ReturnsAt(topo: Topo, p: Pattern, k: nat) {
    topo.nets != [] &&
    match p
    case Ring => k + 1 == |topo.gpus|
    case SplitTree => k == 1
    case BalancedTree => k == 0 || k == 1
    case Tree => k == 0
    case Nvls => k == 0
  }

  /** The way to the k-th GPU: from the one before, or for the first one from a NIC if there are any. */
  function Arrive(topo: Topo, w: Written, c: nat, k: nat, rank: int): seq<Leg>
    requires c < |w.rows| && c < |w.nics| && k <= |w.rows[c]|
  {
    if k > 0 then [Leg(GpuStop(w.rows[c][k - 1]), GpuStop(rank), 1)]
    else if topo.nets != [] then [Leg(NicStop(w.nics[c].0), GpuStop(rank), 1)]
    else []
  }

  function Return(topo: Topo, p: Pattern, w: Written, c: nat, k: nat, rank: int): seq<Leg>
    requires c < |w.nics|
  {
    if ReturnsAt(topo, p, k) then [Leg(GpuStop(rank), NicStop(w.nics[c].1), 1)] else []
  }

  /** The first `k` GPUs of a channel, with the ways back to a NIC. */
  function Trail(topo: Topo, p: Pattern, w: Written, c: nat, k: nat): seq<Leg>
    requires c < |w.rows| && c < |w.nics| && k <= |w.rows[c]|
  {
    if k == 0 then []
    else
      var rank := w.rows[c][k - 1];
      Trail(topo, p, w, c, k - 1) + Arrive(topo, w, c, k - 1, rank) + Return(topo, p, w, c, k - 1, rank)
  }

  /** Between the NVSwitch and the first `d` GPUs; the head of the channel takes two shares. */
  function SwitchLegs(topo: Topo, down: bool, head: int, d: nat): seq<Leg>
    requires d <= |topo.gpus|
  {
    if d == 0 then []
    else
      var g, mult := GpuStop(topo.gpus[d - 1]), if topo.gpus[d - 1] == head then 2 else 1;
      SwitchLegs(topo, down, head, d - 1) + [if down then Leg(SwitchStop, g, mult) else Leg(g, SwitchStop, mult)]
  }

  /** All of channel `c`. Without NICs a ring goes from its last GPU back to the first; with NVLS the switch connects all GPUs. */
  function Route(topo: Topo, p: Pattern, w: Written, c: nat): seq<Leg>
    requires c < |w.rows| && c < |w.nics| && |w.rows[c]| == |topo.gpus| >= 1
  {
    var n, row := |topo.gpus|, w.rows[c];
    if p.Nvls? then
      Trail(topo, p, w, c, 1) + SwitchLegs(topo, true, row[0], n) + SwitchLegs(topo, false, row[0], n)
    else if p.Ring? && topo.nets == [] then
      Trail(topo, p, w, c, n) + [Leg(GpuStop(row[n - 1]), GpuStop(row[0]), 1)]
    else
      Trail(topo, p, w, c, n)
  }

  // ---------------------------------------------------------------- what it takes

  /** A way between two places of the node. */
  datatype Hop = Hop(a: End, b: End, mult: nat)

  predicate HopOk(topo: Topo, h: Hop) { IsEnd(topo, h.a) && IsEnd(topo, h.b) }

  predicate HopsOk(topo: Topo, hops: seq<Hop>) { forall k :: 0 <= k < |hops| ==> HopOk(topo, hops[k]) }

  function StopOf(topo: Topo, e: End): Stop
    requires IsEnd(topo, e)
  {
    match e
    case AtGpu(i) => GpuStop(topo.gpus[i])
    case AtNet(i) => NicStop(topo.nets[i].id)
    case AtNvs => SwitchStop
  }

  /** The hops as they are recorded. */
  function Legs(topo: Topo, hops: seq<Hop>): (legs: seq<Leg>)
    requires HopsOk(topo, hops)
    ensures |legs| == |hops|
  {
    seq(|hops|, k requires 0 <= k < |hops| =>
      assert HopOk(topo, hops[k]); Leg(StopOf(topo, hops[k].a), StopOf(topo, hops[k].b), hops[k].mult))
  }

  predicate Inside(a: End, b: End) { (a.AtGpu? || a.AtNvs?) && (b.AtGpu? || b.AtNvs?) }

  /** Bandwidth of a hop: a balanced tree returns to its NIC twice, with half of the bandwidth each time. */
  function HopCost(q: Wish, h: Hop): real {
    (if Inside(h.a, h.b) then q.bwIntra else if h.b.AtNet? && q.pattern.BalancedTree? then q.bwInter / 2.0 else q.bwInter) * h.mult as real
  }

  /** Link bandwidth left after some hops. */
  ghost function After(topo: Topo, q: Wish, avail: seq<real>, hops: seq<Hop>): (left: seq<real>)
    requires ValidTopo(topo)
    ensures |left| == |avail|
  {
    if hops == [] then avail
    else
      var h := hops[|hops| - 1];
      var path := topo.path(h.a, h.b);
      assert PathOk(topo, path);
      Charged(topo, After(topo, q, avail, hops[..|hops| - 1]), h.a, path, |path.links|, HopCost(q, h))
  }

  /** ... and after all hops of some channels. */
  ghost function AfterAll(topo: Topo, q: Wish, avail: seq<real>, chans: seq<seq<Hop>>): (left: seq<real>)
    requires ValidTopo(topo)
    ensures |left| == |avail|
  {
    if chans == [] then avail else After(topo, q, AfterAll(topo, q, avail, chans[..|chans| - 1]), chans[|chans| - 1])
  }

  /** Links passed on some hops. */
  function Length(topo: Topo, hops: seq<Hop>): int {
    if hops == [] then 0
    else
      var h := hops[|hops| - 1];
      Length(topo, hops[..|hops| - 1]) + h.mult * |topo.path(h.a, h.b).links|
  }

  function LengthAll(topo: Topo, chans: seq<seq<Hop>>): int {
    if chans == [] then 0 else LengthAll(topo, chans[..|chans| - 1]) + Length(topo, chans[|chans| - 1])
  }

  /** The path is of an allowed type, for trees in both directions. */
  predicate Near(topo: Topo, q: Wish, h: Hop) {
    var limit := if Inside(h.a, h.b) then q.typeIntra else q.typeInter;
    && (h.mult == 1 ==> topo.path(h.a, h.b).kind <= limit)
    && (h.mult == 1 && (q.pattern.BalancedTree? || q.pattern.Tree? || q.pattern.SplitTree?) ==> topo.path(h.b, h.a).kind <= limit)
  }

  predicate AllNear(topo: Topo, q: Wish, hops: seq<Hop>) { forall k :: 0 <= k < |hops| ==> Near(topo, q, hops[k]) }

  // ---------------------------------------------------------------- which NICs

  predicate IsFirst(topo: Topo, n: nat, id: int) {
    n < |topo.nets| && topo.nets[n].id == id && forall k :: 0 <= k < n ==> topo.nets[k].id != id
  }

  /** A channel can start from NIC `n`: one of those listed, every second one where the previous one returned, if they cross. */
  predicate StartRule(topo: Topo, q: Wish, w: Written, c: nat, n: nat) {
    && n in topo.allNets && n < |topo.nets| && (q.collNet ==> topo.nets[n].collSupport)
    && (q.crossNic != 0 && c % 2 == 1 ==> c <= |w.nics| && topo.nets[n].id == w.nics[c - 1].1)
  }

  /** ... and return to NIC `m`: the same one for a tree, the same port if they do not cross, every second one where the previous one started. */
  predicate ReturnRule(topo: Topo, q: Wish, w: Written, c: nat, m: nat) {
    && m < |topo.nets| && c < |w.nics|
    && (q.pattern.Tree? ==> topo.nets[m].id == w.nics[c].0)
    && (q.crossNic != 1 ==> exists s :: 0 <= s < |topo.nets| && IsFirst(topo, s, w.nics[c].0) && SamePort(topo, s, m))
    && (q.crossNic != 0 && c % 2 == 1 ==> topo.nets[m].id == w.nics[c - 1].0)
  }

  predicate SamePort(topo: Topo, s: nat, m: nat) {
    s < |topo.nets| && m < |topo.nets| && topo.nets[s].asic == topo.nets[m].asic && topo.nets[s].port == topo.nets[m].port
  }

  /** The NIC is one of those listed for the GPU. */
  predicate ListedNic(topo: Topo, h: Hop) {
    h.a.AtGpu? && h.b.AtNet? && h.a.index < |topo.gpuNets| && h.b.index in topo.gpuNets[h.a.index]
  }

  /** Channel `c` starts from the NIC recorded for it and returns by the rules. */
  predicate NicsOk(topo: Topo, q: Wish, w: Written, c: nat, hops: seq<Hop>, starts: seq<nat>) {
    topo.nets != [] ==>
      && c < |starts| && c < |w.nics| && StartRule(topo, q, w, c, starts[c]) && topo.nets[starts[c]].id == w.nics[c].0
      && (hops != [] ==> hops[0].a == AtNet(starts[c]))
      && (forall k :: 0 <= k < |hops| && hops[k].b.AtNet? ==> ListedNic(topo, hops[k]) && ReturnRule(topo, q, w, c, hops[k].b.index))
  }

  /** NIC bandwidth left after channels have started from some NICs. */
  function NicAfter(topo: Topo, avail: seq<real>, bw: real, starts: seq<nat>): (left: seq<real>)
    requires |avail| == |topo.nets| && forall k :: 0 <= k < |starts| ==> starts[k] < |topo.nets|
    ensures |left| == |avail|
  {
    if starts == [] then avail else TakeFrom(topo, NicAfter(topo, avail, bw, starts[..|starts| - 1]), starts[|starts| - 1], bw)
  }

  /** Every NIC has the bandwidth when a channel starts from it. */
  predicate NicsAfford(topo: Topo, avail: seq<real>, bw: real, starts: seq<nat>) {
    && |avail| == |topo.nets| && (forall k :: 0 <= k < |starts| ==> starts[k] < |topo.nets|)
    && (forall k :: 0 <= k < |starts| ==> NicAfter(topo, avail, bw, starts[..k])[starts[k]] >= bw)
  }

  // ---------------------------------------------------------------- which GPUs

  /** In free order, rank `b` can follow rank `a`: there is a path, and with NVSwitches they are neighbours. */
  predicate RankNext(topo: Topo, p: Pattern, a: int, b: int) {
    forall g: nat, h: nat :: g < |topo.gpus| && h < |topo.gpus| && topo.gpus[g] == a && topo.gpus[h] == b ==>
      topo.path(AtGpu(g), AtGpu(h)).links != [] && (topo.nvs != 0 ==> Neighbour(topo, p, g, h))
  }

  /** More links than any path has. */
  const FAR: nat := 0xfffffff

  /** No GPU has more bandwidth from NIC `n` than GPU `g`, or as much over fewer links. */
  predicate IsNearest(topo: Topo, n: nat, g: nat) {
    var mine := topo.path(AtNet(n), AtGpu(g));
    && mine.bw >= 0.0 && (mine.bw > 0.0 || |mine.links| <= FAR)
    && forall h: nat :: h < |topo.gpus| ==>
         var other := topo.path(AtNet(n), AtGpu(h));
         other.bw <= mine.bw && (other.bw == mine.bw ==> |mine.links| <= |other.links|)
  }

  /** ... and it is enough. */
  predicate Nearest(topo: Topo, n: nat, g: nat, bw: int) { IsNearest(topo, n, g) && topo.path(AtNet(n), AtGpu(g)).bw >= bw as real }

  /** The first GPUs of channel `c` in free order: each can follow the one before, and the first one is nearest to the NIC. */
  predicate FreeRanks(topo: Topo, q: Wish, c: nat, starts: seq<nat>, ranks: seq<int>) {
    && (forall k :: 0 < k < |ranks| ==> RankNext(topo, q.pattern, ranks[k - 1], ranks[k]))
    && (topo.nets != [] && ranks != [] ==> c < |starts| && exists g: nat ::
          g < |topo.gpus| && topo.gpus[g] == ranks[0] && Nearest(topo, starts[c], g, Truncated(q.bwInter)))
  }

  /** How the search comes to the row of channel `c`: the previous row again, free order, or index order for the first one. */
  predicate InOrder(topo: Topo, q: Wish, w: Written, c: nat, starts: seq<nat>, order: Order) {
    && c < |w.rows| && |w.rows[c]| == |topo.gpus| >= 1
    && match order
       case Replay => c >= 1 && w.rows[c] == w.rows[c - 1]
       case Free => (c == 0 || !q.sameChannels) && FreeRanks(topo, q, c, starts, w.rows[c])
       case Pci => c == 0 && w.rows[c] == topo.gpus && (topo.nets != [] ==> topo.nvs == 0)
  }

  /** The head of NVLS channel `c`: GPU number `c`, or the one local to its NIC. */
  predicate HeadOk(topo: Topo, c: nat, starts: seq<nat>, rank: int) {
    if topo.nets == [] then c < |topo.gpus| && rank == topo.gpus[c]
    else c < |starts| && starts[c] < |topo.localGpu| && 0 <= topo.localGpu[starts[c]] < |topo.gpus| && rank == topo.gpus[topo.localGpu[starts[c]]]
  }

  /** The row of channel `c` has every GPU once, in one of the orders; an NVLS row names its head. */
  ghost predicate Chosen(topo: Topo, q: Wish, w: Written, c: nat, starts: seq<nat>) {
    && c < |w.rows|
    && if q.pattern.Nvls? then w.rows[c] != [] && HeadOk(topo, c, starts, w.rows[c][0])
       else RowOk(topo, w.rows[c]) && exists order :: InOrder(topo, q, w, c, starts, order)
  }

  // ---------------------------------------------------------------- what a node can carry

  /** What there is before the search: bandwidth of links and NICs, and hops counted already. */
  datatype Stock = Stock(bw: seq<real>, nicBw: seq<real>, hops: int)

  /** A graph, with the hops of its channels and the NICs they start from. */
  datatype Sol = Sol(g: Graph, chans: seq<seq<Hop>>, starts: seq<nat>)

  /** Channel `c` runs over these hops. */
  ghost predicate ChannelOk(topo: Topo, q: Wish, w: Written, c: nat, hops: seq<Hop>, starts: seq<nat>) {
    && c < |w.rows| && c < |w.nics| && |w.rows[c]| == |topo.gpus| >= 1
    && HopsOk(topo, hops) && Legs(topo, hops) == Route(topo, q.pattern, w, c) && AllNear(topo, q, hops)
    && NicsOk(topo, q, w, c, hops, starts) && Chosen(topo, q, w, c, starts)
  }

  /**
   The channels of a graph are as its pattern wants them, the links and NICs of the node have the bandwidth
   for all of them together, and the graph counts their hops.
   */
  ghost predicate Carries(topo: Topo, stock: Stock, sol: Sol)
    requires ValidTopo(topo)
  {
    var q := WishOf(sol.g);
    && |sol.chans| == sol.g.nChannels && |sol.starts| == (if topo.nets == [] then 0 else sol.g.nChannels)
    && (forall c :: 0 <= c < |sol.chans| ==> ChannelOk(topo, q, WrittenOf(sol.g), c, sol.chans[c], sol.starts))
    && NonNeg(AfterAll(topo, q, stock.bw, sol.chans))
    && sol.g.nHops == stock.hops + LengthAll(topo, sol.chans)
    && NicsAfford(topo, stock.nicBw, Truncated(q.bwInter) as real, sol.starts)
  }

  ghost predicate Affordable(topo: Topo, stock: Stock, g: Graph)
    requires ValidTopo(topo)
  {
    exists chans: seq<seq<Hop>>, starts: seq<nat> :: Carries(topo, stock, Sol(g, chans, starts))
  }

  // ---------------------------------------------------------------- one hop more

  lemma LegsMore(topo: Topo, hops: seq<Hop>, h: Hop)
    requires HopsOk(topo, hops) && HopOk(topo, h)
    ensures HopsOk(topo, hops + [h]) && Legs(topo, hops + [h]) == Legs(topo, hops) + [Leg(StopOf(topo, h.a), StopOf(topo, h.b), h.mult)]
  {
  }

  lemma LegsConcat(topo: Topo, a: seq<Hop>, b: seq<Hop>)
    requires HopsOk(topo, a) && HopsOk(topo, b)
    ensures HopsOk(topo, a + b) && Legs(topo, a + b) == Legs(topo, a) + Legs(topo, b)
  {
  }

  lemma AfterMore(topo: Topo, q: Wish, avail: seq<real>, hops: seq<Hop>, h: Hop)
    requires ValidTopo(topo)
    ensures var path := topo.path(h.a, h.b);
      && PathOk(topo, path)
      && After(topo, q, avail, hops + [h]) == Charged(topo, After(topo, q, avail, hops), h.a, path, |path.links|, HopCost(q, h))
      && Length(topo, hops + [h]) == Length(topo, hops) + h.mult * |path.links|
  {
    assert (hops + [h])[..|hops|] == hops;
  }

  lemma {:induction false} AfterConcat(topo: Topo, q: Wish, avail: seq<real>, a: seq<Hop>, b: seq<Hop>)
    requires ValidTopo(topo)
    ensures After(topo, q, avail, a + b) == After(topo, q, After(topo, q, avail, a), b)
    ensures Length(topo, a + b) == Length(topo, a) + Length(topo, b)
    decreases |b|
  {
    if b == [] {
      assert a + b == a;
    } else {
      var front, h := b[..|b| - 1], b[|b| - 1];
      AfterConcat(topo, q, avail, a, front);
      assert a + b == (a + front) + [h] && b == front + [h];
      hide After, Length, ValidTopo;
      AfterMore(topo, q, avail, a + front, h);
      AfterMore(topo, q, After(topo, q, avail, a), front, h);
    }
  }

  lemma AfterAllMore(topo: Topo, q: Wish, avail: seq<real>, chans: seq<seq<Hop>>, hops: seq<Hop>)
    requires ValidTopo(topo)
    ensures AfterAll(topo, q, avail, chans + [hops]) == After(topo, q, AfterAll(topo, q, avail, chans), hops)
    ensures LengthAll(topo, chans + [hops]) == LengthAll(topo, chans) + Length(topo, hops)
  {
    assert (chans + [hops])[..|chans|] == chans;
  }

  lemma NicAfterMore(topo: Topo, avail: seq<real>, bw: real, starts: seq<nat>, n: nat)
    requires NicsAfford(topo, avail, bw, starts) && n < |topo.nets| && NicAfter(topo, avail, bw, starts)[n] >= bw
    ensures NicsAfford(topo, avail, bw, starts + [n])
    ensures NicAfter(topo, avail, bw, starts + [n]) == TakeFrom(topo, NicAfter(topo, avail, bw, starts), n, bw)
  {
    var more := starts + [n];
    assert more[..|starts|] == starts;
    forall k | 0 <= k < |more| ensures NicAfter(topo, avail, bw, more[..k])[more[k]] >= bw {
      if k < |starts| { assert more[..k] == starts[..k]; }
    }
  }

  // ---------------------------------------------------------------- what depends on which records

  /** A trail depends on the GPUs so far, the NIC of the start, and the NIC returned to if it has been back. */
  lemma {:induction false} TrailKept(topo: Topo, p: Pattern, a: Written, b: Written, c: nat, step: nat, back: bool, k: nat)
    requires Kept(a, b, c, step, back) && c < |a.rows| && c < |a.nics| && k <= step <= |a.rows[c]|
    requires back || forall j :: 0 <= j < k ==> !ReturnsAt(topo, p, j)
    ensures c < |b.rows| && c < |b.nics| && step <= |b.rows[c]| && Trail(topo, p, b, c, k) == Trail(topo, p, a, c, k)
  {
    hide ReturnsAt;
    if k > 0 { TrailKept(topo, p, a, b, c, step, back, k - 1); }
  }

  /** Records up to channel `c` decide over it. */
  lemma ChannelKept(topo: Topo, q: Wish, a: Written, b: Written, c: nat, hops: seq<Hop>, starts: seq<nat>, starts': seq<nat>)
    requires Below(a, b, c + 1) && ChannelOk(topo, q, a, c, hops, starts) && (c < |starts| ==> c < |starts'| && starts'[c] == starts[c])
    ensures ChannelOk(topo, q, b, c, hops, starts')
  {
    var n := if q.pattern.Nvls? then 1 else |topo.gpus|;
    BelowIsKept(a, b, c, n, true);
    TrailKept(topo, q.pattern, a, b, c, n, true, n);
    hide Trail, SwitchLegs, Legs, ReturnsAt, Near, RowOk, NicsOk, Chosen;
    NicsKept(topo, q, a, b, c, hops, starts, starts');
    ChosenKept(topo, q, a, b, c, starts, starts');
  }

  lemma ChosenKept(topo: Topo, q: Wish, a: Written, b: Written, c: nat, starts: seq<nat>, starts': seq<nat>)
    requires Below(a, b, c + 1) && Chosen(topo, q, a, c, starts) && (c < |starts| ==> c < |starts'| && starts'[c] == starts[c])
    ensures Chosen(topo, q, b, c, starts')
  {
    hide RowOk, RankNext, Nearest;
    if !q.pattern.Nvls? {
      var order :| InOrder(topo, q, a, c, starts, order);
      assert InOrder(topo, q, b, c, starts', order);
    }
  }

  lemma NicsKept(topo: Topo, q: Wish, a: Written, b: Written, c: nat, hops: seq<Hop>, starts: seq<nat>, starts': seq<nat>)
    requires Below(a, b, c) && |a.nics| == |b.nics| && (c < |a.nics| ==> b.nics[c].0 == a.nics[c].0)
    requires NicsOk(topo, q, a, c, hops, starts) && (c < |starts| ==> c < |starts'| && starts'[c] == starts[c])
    ensures NicsOk(topo, q, b, c, hops, starts')
  {
    hide IsFirst, SamePort, ListedNic;
  }
}
