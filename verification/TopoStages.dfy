/** What the search knows at each stage of a channel: which legs it has taken, and where it is to return to a NIC. */
module TopoStages {
  import opened Arith
  import opened TopoLinks
  import opened TopoGraph
  import opened TopoRoutes

  /** Link bandwidth, hop count and NIC bandwidth are what the complete channels, and the one under way, have left. */
  ghost predicate Accounted(topo: Topo, stock: Stock, q: Wish, linkBw: seq<real>, nHops: int, netBw: seq<real>,
                            done: seq<seq<Hop>>, cur: seq<Hop>, starts: seq<nat>)
    requires ValidTopo(topo)
  {
    && linkBw == After(topo, q, AfterAll(topo, q, stock.bw, done), cur)
    && nHops == stock.hops + LengthAll(topo, done) + Length(topo, cur)
    && NicsAfford(topo, stock.nicBw, Truncated(q.bwInter) as real, starts)
    && netBw == NicAfter(topo, stock.nicBw, Truncated(q.bwInter) as real, starts)
  }

  /** Complete channels run over their hops. */
  ghost predicate DoneOk(topo: Topo, q: Wish, w: Written, done: seq<seq<Hop>>, starts: seq<nat>) {
    forall d :: 0 <= d < |done| ==> ChannelOk(topo, q, w, d, done[d], starts)
  }

  /** Channel `c` has taken the hops `cur`, which are these legs. */
  ghost predicate Riding(topo: Topo, q: Wish, w: Written, c: nat, cur: seq<Hop>, starts: seq<nat>, legs: seq<Leg>) {
    && HopsOk(topo, cur) && Legs(topo, cur) == legs && AllNear(topo, q, cur)
    && NicsOk(topo, q, w, c, cur, starts) && |starts| == if topo.nets == [] then 0 else c + 1
  }

  // ---------------------------------------------------------------- where to return

  /** The first position from `k` on from which the channel returns to a NIC, or -1. */
  function NextBack(topo: Topo, p: Pattern, k: nat): int {
    if topo.nets == [] then -1
    else match p
      case Ring => if k < |topo.gpus| then |topo.gpus| - 1 else -1
      case SplitTree => if k <= 1 then 1 else -1
      case BalancedTree => if k <= 1 then k else -1
      case Tree => if k == 0 then 0 else -1
      case Nvls => if k == 0 then 0 else -1
  }

  /** The channel has been back to a NIC: it is to return elsewhere than at first. */
  predicate Been(topo: Topo, p: Pattern, backToNet: int) { backToNet != BackToNet(topo, p) }

  lemma BackFacts(topo: Topo, p: Pattern, k: nat)
    requires |topo.gpus| >= 1
    ensures NextBack(topo, p, 0) == BackToNet(topo, p)
    ensures ReturnsAt(topo, p, k) <==> NextBack(topo, p, k) == k
    ensures !ReturnsAt(topo, p, k) ==> NextBack(topo, p, k + 1) == NextBack(topo, p, k)
    ensures ReturnsAt(topo, p, k) ==> NextBack(topo, p, k + 1) == if p.BalancedTree? && k == 0 then 1 else -1
    ensures ReturnsAt(topo, p, k) ==> NextBack(topo, p, k + 1) != k && Been(topo, p, NextBack(topo, p, k + 1))
    ensures !Been(topo, p, NextBack(topo, p, k)) ==> forall j :: 0 <= j < k ==> !ReturnsAt(topo, p, j)
    ensures NextBack(topo, p, k) == -1 || NextBack(topo, p, k) >= k
    ensures ReturnsAt(topo, p, k) ==> (Been(topo, p, k) <==> p.BalancedTree? && k == 1)
  {
  }

  // ---------------------------------------------------------------- stages of a channel

  /** The channel has its first `step` GPUs and is about to go to the next one. */
  ghost predicate Leads(topo: Topo, q: Wish, w: Written, c: nat, cur: seq<Hop>, starts: seq<nat>, step: nat, backToNet: int) {
    && c < |w.rows| && c < |w.nics| && step <= |w.rows[c]| && backToNet == NextBack(topo, q.pattern, step)
    && Riding(topo, q, w, c, cur, starts, Trail(topo, q.pattern, w, c, step))
  }

  /** What the channel has taken once it is at its GPU number `step`, before or after it returned to a NIC from there. */
  function Stand(topo: Topo, p: Pattern, w: Written, c: nat, step: nat, backToNet: int, rank: int): seq<Leg>
    requires c < |w.rows| && c < |w.nics| && step <= |w.rows[c]|
  {
    Trail(topo, p, w, c, step) + Arrive(topo, w, c, step, rank) + if backToNet == step then [] else Return(topo, p, w, c, step, rank)
  }

  ghost predicate Stands(topo: Topo, q: Wish, w: Written, c: nat, cur: seq<Hop>, starts: seq<nat>, step: nat, backToNet: int, rank: int) {
    && c < |w.rows| && c < |w.nics| && step < |w.rows[c]|
    && (if backToNet == step then ReturnsAt(topo, q.pattern, step) else backToNet == NextBack(topo, q.pattern, step + 1))
    && Riding(topo, q, w, c, cur, starts, Stand(topo, q.pattern, w, c, step, backToNet, rank))
  }

  /** The channel is complete. */
  ghost predicate Arrived(topo: Topo, q: Wish, w: Written, c: nat, cur: seq<Hop>, starts: seq<nat>) {
    && c < |w.rows| && c < |w.nics| && |w.rows[c]| == |topo.gpus| >= 1
    && Riding(topo, q, w, c, cur, starts, Route(topo, q.pattern, w, c))
  }

  /** Where the channel comes from when it goes to GPU number `step`. */
  ghost predicate ComesFrom(topo: Topo, w: Written, c: nat, starts: seq<nat>, step: nat, from: End) {
    && c < |w.rows| && step <= |w.rows[c]|
    && if step > 0 then from.AtGpu? && from.index < |topo.gpus| && topo.gpus[from.index] == w.rows[c][step - 1]
       else if topo.nets == [] then from == Nowhere
       else c < |starts| && from == AtNet(starts[c])
  }

  lemma NothingTaken(topo: Topo, stock: Stock, q: Wish)
    requires ValidTopo(topo) && |stock.nicBw| == |topo.nets|
    ensures Accounted(topo, stock, q, stock.bw, stock.hops, stock.nicBw, [], [], [])
  {
  }

  lemma HopAccounted(topo: Topo, stock: Stock, q: Wish, linkBw: seq<real>, nHops: int, netBw: seq<real>,
                     done: seq<seq<Hop>>, cur: seq<Hop>, starts: seq<nat>, h: Hop)
    requires ValidTopo(topo) && Accounted(topo, stock, q, linkBw, nHops, netBw, done, cur, starts)
    ensures var path := topo.path(h.a, h.b);
      && PathOk(topo, path)
      && Accounted(topo, stock, q, Charged(topo, linkBw, h.a, path, |path.links|, HopCost(q, h)), nHops + h.mult * |path.links|, netBw,
                   done, cur + [h], starts)
  {
    hide ValidTopo, After, AfterAll, Length, LengthAll, NicsAfford, NicAfter, HopCost;
    AfterMore(topo, q, AfterAll(topo, q, stock.bw, done), cur, h);
  }

  lemma DoneKept(topo: Topo, q: Wish, a: Written, b: Written, done: seq<seq<Hop>>, starts: seq<nat>, starts': seq<nat>)
    requires Below(a, b, |done|) && DoneOk(topo, q, a, done, starts) && starts <= starts'
    ensures DoneOk(topo, q, b, done, starts')
  {
    hide ChannelOk;
    forall d | 0 <= d < |done| ensures ChannelOk(topo, q, b, d, done[d], starts') {
      BelowLess(a, b, |done|, d + 1);
      ChannelKept(topo, q, a, b, d, done[d], starts, starts');
    }
  }

  lemma BelowLess(a: Written, b: Written, c: nat, d: nat)
    requires Below(a, b, c) && d <= c
    ensures Below(a, b, d)
  {
  }

  lemma RidingKept(topo: Topo, q: Wish, a: Written, b: Written, c: nat, step: nat, back: bool, cur: seq<Hop>, starts: seq<nat>, legs: seq<Leg>)
    requires Kept(a, b, c, step, back) && Riding(topo, q, a, c, cur, starts, legs)
    ensures Riding(topo, q, b, c, cur, starts, legs)
  {
    hide HopsOk, AllNear, NicsOk;
    NicsKept(topo, q, a, b, c, cur, starts, starts);
  }

  lemma LeadsKept(topo: Topo, q: Wish, a: Written, b: Written, c: nat, step: nat, cur: seq<Hop>, starts: seq<nat>, backToNet: int)
    requires |topo.gpus| >= 1 && Kept(a, b, c, step, Been(topo, q.pattern, backToNet)) && Leads(topo, q, a, c, cur, starts, step, backToNet)
    ensures Leads(topo, q, b, c, cur, starts, step, backToNet)
  {
    hide Riding, Trail, ReturnsAt, NextBack, Been;
    BackFacts(topo, q.pattern, step);
    TrailKept(topo, q.pattern, a, b, c, step, Been(topo, q.pattern, backToNet), step);
    RidingKept(topo, q, a, b, c, step, Been(topo, q.pattern, backToNet), cur, starts, Trail(topo, q.pattern, a, c, step));
  }

  lemma StandsKept(topo: Topo, q: Wish, a: Written, b: Written, c: nat, step: nat, cur: seq<Hop>, starts: seq<nat>, backToNet: int, rank: int)
    requires |topo.gpus| >= 1 && Kept(a, b, c, step, Been(topo, q.pattern, backToNet))
    requires Stands(topo, q, a, c, cur, starts, step, backToNet, rank)
    ensures Stands(topo, q, b, c, cur, starts, step, backToNet, rank)
  {
    var p := q.pattern;
    StandKept(topo, p, a, b, c, step, backToNet, rank);
    hide Riding, Stand, ReturnsAt, NextBack, Been;
    RidingKept(topo, q, a, b, c, step, Been(topo, p, backToNet), cur, starts, Stand(topo, p, a, c, step, backToNet, rank));
  }

  lemma StandKept(topo: Topo, p: Pattern, a: Written, b: Written, c: nat, step: nat, backToNet: int, rank: int)
    requires |topo.gpus| >= 1 && Kept(a, b, c, step, Been(topo, p, backToNet))
    requires c < |a.rows| && c < |a.nics| && step < |a.rows[c]|
    requires if backToNet == step then ReturnsAt(topo, p, step) else backToNet == NextBack(topo, p, step + 1)
    ensures c < |b.rows| && c < |b.nics| && step < |b.rows[c]|
    ensures Stand(topo, p, b, c, step, backToNet, rank) == Stand(topo, p, a, c, step, backToNet, rank)
  {
    hide ReturnsAt, NextBack, Been, Trail;
    BackFacts(topo, p, step);
    BackFacts(topo, p, step + 1);
    TrailKept(topo, p, a, b, c, step, Been(topo, p, backToNet), step);
  }

  /** The GPU is written into the row. */
  lemma StandsPut(topo: Topo, q: Wish, w: Written, c: nat, step: nat, cur: seq<Hop>, starts: seq<nat>, backToNet: int, rank: int)
    requires |topo.gpus| >= 1 && Stands(topo, q, w, c, cur, starts, step, backToNet, rank)
    ensures var w' := w.(rows := w.rows[c := w.rows[c][step := rank]]);
      && Stands(topo, q, w', c, cur, starts, step, backToNet, rank)
      && (backToNet != step ==> Leads(topo, q, w', c, cur, starts, step + 1, backToNet))
  {
    var w' := w.(rows := w.rows[c := w.rows[c][step := rank]]);
    PutIsKept(w, c, step, Been(topo, q.pattern, backToNet), rank);
    StandsKept(topo, q, w, w', c, step, cur, starts, backToNet, rank);
    hide Riding, ReturnsAt, NextBack;
  }

  /** A GPU is reached: the hop there is taken. */
  lemma LeadsOn(topo: Topo, q: Wish, w: Written, c: nat, step: nat, cur: seq<Hop>, starts: seq<nat>, backToNet: int, from: End, g: nat)
    requires |topo.gpus| >= 1 && Leads(topo, q, w, c, cur, starts, step, backToNet) && ComesFrom(topo, w, c, starts, step, from)
    requires g < |topo.gpus| && step < |w.rows[c]|
    requires from != Nowhere ==> Near(topo, q, Hop(from, AtGpu(g), 1))
    ensures var cur' := if from == Nowhere then cur else cur + [Hop(from, AtGpu(g), 1)];
      Stands(topo, q, w, c, cur', starts, step, backToNet, topo.gpus[g])
  {
    var h, p := Hop(from, AtGpu(g), 1), q.pattern;
    BackFacts(topo, p, step);
    var legs := Trail(topo, p, w, c, step);
    assert Stand(topo, p, w, c, step, backToNet, topo.gpus[g]) == legs + Arrive(topo, w, c, step, topo.gpus[g]);
    hide Trail, ReturnsAt, NextBack, Near;
    if from == Nowhere {
      assert legs + Arrive(topo, w, c, step, topo.gpus[g]) == legs;
    } else {
      TrailStarts(topo, p, w, c, step);
      HopRidden(topo, q, w, c, cur, starts, legs, h);
    }
  }

  lemma {:induction false} TrailStarts(topo: Topo, p: Pattern, w: Written, c: nat, k: nat)
    requires c < |w.rows| && c < |w.nics| && k <= |w.rows[c]|
    ensures k > 0 && topo.nets != [] ==> Trail(topo, p, w, c, k) != []
    ensures k == 0 ==> Trail(topo, p, w, c, k) == []
  {
    if k > 1 { TrailStarts(topo, p, w, c, k - 1); }
  }

  /** One hop more. The first one leaves from the NIC the channel starts from. */
  lemma HopRidden(topo: Topo, q: Wish, w: Written, c: nat, cur: seq<Hop>, starts: seq<nat>, legs: seq<Leg>, h: Hop)
    requires Riding(topo, q, w, c, cur, starts, legs) && HopOk(topo, h) && Near(topo, q, h)
    requires cur == [] && topo.nets != [] ==> c < |starts| && h.a == AtNet(starts[c])
    requires h.b.AtNet? ==> ListedNic(topo, h) && ReturnRule(topo, q, w, c, h.b.index)
    ensures Riding(topo, q, w, c, cur + [h], starts, legs + [Leg(StopOf(topo, h.a), StopOf(topo, h.b), h.mult)])
  {
    hide Near, StartRule, ReturnRule, ListedNic;
    LegsMore(topo, cur, h);
  }

  /** The way back to NIC `m` is taken. */
  lemma StandsReturned(topo: Topo, q: Wish, w: Written, c: nat, step: nat, cur: seq<Hop>, starts: seq<nat>, gpu: nat, m: nat)
    requires |topo.gpus| >= 1 && gpu < |topo.gpus| && Stands(topo, q, w, c, cur, starts, step, step, topo.gpus[gpu])
    requires Near(topo, q, Hop(AtGpu(gpu), AtNet(m), 1)) && ListedNic(topo, Hop(AtGpu(gpu), AtNet(m), 1)) && ReturnRule(topo, q, w, c, m)
    requires Been(topo, q.pattern, step) ==> w.nics[c].1 == topo.nets[m].id
    ensures var w' := w.(nics := w.nics[c := (w.nics[c].0, topo.nets[m].id)]);
      var next := if q.pattern.BalancedTree? && step == 0 then 1 else -1;
      Stands(topo, q, w', c, cur + [Hop(AtGpu(gpu), AtNet(m), 1)], starts, step, next, topo.gpus[gpu]) && Been(topo, q.pattern, next)
  {
    var p, rank, h := q.pattern, topo.gpus[gpu], Hop(AtGpu(gpu), AtNet(m), 1);
    var w' := w.(nics := w.nics[c := (w.nics[c].0, topo.nets[m].id)]);
    var next := if p.BalancedTree? && step == 0 then 1 else -1;
    BackFacts(topo, p, step);
    NicIsKept(w, c, step, Been(topo, p, step), topo.nets[m].id);
    StandsKept(topo, q, w, w', c, step, cur, starts, step, rank);
    var legs := Stand(topo, p, w', c, step, step, rank);
    assert Stand(topo, p, w', c, step, next, rank) == legs + [Leg(StopOf(topo, h.a), StopOf(topo, h.b), 1)];
    StandNotEmpty(topo, p, w', c, step, rank);
    NicsRule(topo, q, w, w', c, m);
    hide Stand, ReturnsAt, NextBack, Been, Near, ReturnRule, ListedNic;
    HopRidden(topo, q, w', c, cur, starts, legs, h);
  }

  lemma NicsRule(topo: Topo, q: Wish, w: Written, w': Written, c: nat, m: nat)
    requires ReturnRule(topo, q, w, c, m) && |w'.nics| == |w.nics| && w' == w.(nics := w.nics[c := (w.nics[c].0, w'.nics[c].1)])
    ensures ReturnRule(topo, q, w', c, m)
  {
    hide IsFirst, SamePort;
  }

  lemma StandNotEmpty(topo: Topo, p: Pattern, w: Written, c: nat, step: nat, rank: int)
    requires c < |w.rows| && c < |w.nics| && step < |w.rows[c]|
    ensures topo.nets != [] ==> Stand(topo, p, w, c, step, step, rank) != []
  {
    TrailStarts(topo, p, w, c, step);
  }

  /** A channel without a way back from its last GPU to the first is complete. */
  lemma LeadsHome(topo: Topo, q: Wish, w: Written, c: nat, cur: seq<Hop>, starts: seq<nat>, backToNet: int)
    requires |topo.gpus| >= 1 && Leads(topo, q, w, c, cur, starts, |topo.gpus|, backToNet) && |w.rows[c]| == |topo.gpus|
    requires !q.pattern.Nvls? && !(q.pattern.Ring? && topo.nets == [])
    ensures Arrived(topo, q, w, c, cur, starts)
  {
    hide Trail, Riding;
  }

  /** The way from the last GPU of a ring to the first. */
  lemma LeadsAround(topo: Topo, q: Wish, w: Written, c: nat, cur: seq<Hop>, starts: seq<nat>, backToNet: int, gpu: nat, g: nat)
    requires |topo.gpus| >= 1 && Leads(topo, q, w, c, cur, starts, |topo.gpus|, backToNet) && |w.rows[c]| == |topo.gpus|
    requires q.pattern.Ring? && topo.nets == [] && gpu < |topo.gpus| && g < |topo.gpus|
    requires topo.gpus[gpu] == w.rows[c][|topo.gpus| - 1] && topo.gpus[g] == w.rows[c][0] && Near(topo, q, Hop(AtGpu(gpu), AtGpu(g), 1))
    ensures Arrived(topo, q, w, c, cur + [Hop(AtGpu(gpu), AtGpu(g), 1)], starts)
  {
    hide Trail, Near;
    HopRidden(topo, q, w, c, cur, starts, Trail(topo, q.pattern, w, c, |topo.gpus|), Hop(AtGpu(gpu), AtGpu(g), 1));
  }

  /** A complete channel joins the others. */
  lemma ChannelDone(topo: Topo, q: Wish, w: Written, done: seq<seq<Hop>>, cur: seq<Hop>, starts: seq<nat>)
    requires DoneOk(topo, q, w, done, starts) && Arrived(topo, q, w, |done|, cur, starts)
    requires Chosen(topo, q, w, |done|, starts)
    ensures DoneOk(topo, q, w, done + [cur], starts)
  {
    var c := |done|;
    assert ChannelOk(topo, q, w, c, cur, starts);
    hide ChannelOk;
    forall d | 0 <= d < c + 1 ensures ChannelOk(topo, q, w, d, (done + [cur])[d], starts) {
      if d < c { assert ChannelOk(topo, q, w, d, done[d], starts); }
    }
  }

  lemma DoneAccounted(topo: Topo, stock: Stock, q: Wish, linkBw: seq<real>, nHops: int, netBw: seq<real>,
                      done: seq<seq<Hop>>, cur: seq<Hop>, starts: seq<nat>)
    requires ValidTopo(topo) && Accounted(topo, stock, q, linkBw, nHops, netBw, done, cur, starts)
    ensures Accounted(topo, stock, q, linkBw, nHops, netBw, done + [cur], [], starts)
  {
    hide ValidTopo, AfterAll, LengthAll, NicsAfford, NicAfter;
    AfterAllMore(topo, q, stock.bw, done, cur);
  }

  /** What has been taken is what the graph needs. */
  lemma TakenIsCarried(topo: Topo, stock: Stock, g: Graph, linkBw: seq<real>, netBw: seq<real>, done: seq<seq<Hop>>, starts: seq<nat>)
    requires ValidTopo(topo) && Accounted(topo, stock, WishOf(g), linkBw, g.nHops, netBw, done, [], starts) && NonNeg(linkBw)
    requires DoneOk(topo, WishOf(g), WrittenOf(g), done, starts) && |done| == g.nChannels
    requires |starts| == if topo.nets == [] then 0 else g.nChannels
    ensures Carries(topo, stock, Sol(g, done, starts)) && Affordable(topo, stock, g)
  {
    hide ValidTopo, AfterAll, LengthAll, NicsAfford, NicAfter, ChannelOk;
    assert Carries(topo, stock, Sol(g, done, starts));
  }

  /** A channel starts from NIC `n`. */
  lemma StartAccounted(topo: Topo, stock: Stock, q: Wish, linkBw: seq<real>, nHops: int, netBw: seq<real>,
                       done: seq<seq<Hop>>, starts: seq<nat>, n: nat)
    requires ValidTopo(topo) && Accounted(topo, stock, q, linkBw, nHops, netBw, done, [], starts)
    requires n < |topo.nets| == |netBw| && netBw[n] >= Truncated(q.bwInter) as real
    ensures Accounted(topo, stock, q, linkBw, nHops, TakeFrom(topo, netBw, n, Truncated(q.bwInter) as real), done, [], starts + [n])
  {
    hide ValidTopo, After, AfterAll, Length, LengthAll, Truncated, TakeFrom;
    NicAfterMore(topo, stock.nicBw, Truncated(q.bwInter) as real, starts, n);
  }

  lemma LeadsOut(topo: Topo, q: Wish, w: Written, c: nat, starts: seq<nat>)
    requires |topo.gpus| >= 1 && c < |w.rows| && c < |w.nics| && |starts| == (if topo.nets == [] then 0 else c + 1)
    requires topo.nets != [] ==> StartRule(topo, q, w, c, starts[c]) && topo.nets[starts[c]].id == w.nics[c].0
    ensures Leads(topo, q, w, c, [], starts, 0, BackToNet(topo, q.pattern))
  {
    BackFacts(topo, q.pattern, 0);
    assert Legs(topo, []) == [];
    hide StartRule;
  }

  // ---------------------------------------------------------------- NVLS

  /** The two directions between the NVSwitch and GPU `d`. */
  function FromEnd(down: bool, d: nat): End { if down then AtNvs else AtGpu(d) }

  function ToEnd(down: bool, d: nat): End { if down then AtGpu(d) else AtNvs }

  /** The head of an NVLS channel carries twice the traffic of the others. */
  function Share(gpu: nat, d: nat): nat { if d == gpu then 2 else 1 }

  /** The hops between the NVSwitch and the first `d` GPUs. */
  function SwitchHops(down: bool, gpu: nat, d: nat): (hops: seq<Hop>) {
    if d == 0 then [] else SwitchHops(down, gpu, d - 1) + [Hop(FromEnd(down, d - 1), ToEnd(down, d - 1), Share(gpu, d - 1))]
  }

  lemma {:induction false} SwitchHopsAre(topo: Topo, down: bool, gpu: nat, d: nat)
    requires gpu < |topo.gpus| && d <= |topo.gpus| && forall i, j :: 0 <= i < j < |topo.gpus| ==> topo.gpus[i] != topo.gpus[j]
    ensures HopsOk(topo, SwitchHops(down, gpu, d)) && Legs(topo, SwitchHops(down, gpu, d)) == SwitchLegs(topo, down, topo.gpus[gpu], d)
    ensures forall k :: 0 <= k < |SwitchHops(down, gpu, d)| ==> !SwitchHops(down, gpu, d)[k].b.AtNet?
  {
    if d > 0 {
      SwitchHopsAre(topo, down, gpu, d - 1);
      LegsMore(topo, SwitchHops(down, gpu, d - 1), Hop(FromEnd(down, d - 1), ToEnd(down, d - 1), Share(gpu, d - 1)));
    }
  }

  /** With the switch connected an NVLS channel is complete. */
  lemma LeadsThroughSwitch(topo: Topo, q: Wish, w: Written, c: nat, cur: seq<Hop>, starts: seq<nat>, backToNet: int, gpu: nat)
    requires ValidTopo(topo) && q.pattern.Nvls? && Leads(topo, q, w, c, cur, starts, 1, backToNet) && |w.rows[c]| == |topo.gpus|
    requires gpu < |topo.gpus| && w.rows[c][0] == topo.gpus[gpu]
    requires AllNear(topo, q, SwitchHops(true, gpu, |topo.gpus|)) && AllNear(topo, q, SwitchHops(false, gpu, |topo.gpus|))
    ensures Arrived(topo, q, w, c, cur + SwitchHops(true, gpu, |topo.gpus|) + SwitchHops(false, gpu, |topo.gpus|), starts)
  {
    var n := |topo.gpus|;
    var down, up := SwitchHops(true, gpu, n), SwitchHops(false, gpu, n);
    SwitchHopsAre(topo, true, gpu, n);
    SwitchHopsAre(topo, false, gpu, n);
    TrailStarts(topo, q.pattern, w, c, 1);
    hide ValidTopo, Trail, SwitchHops, SwitchLegs, Near;
    HopsRidden(topo, q, w, c, cur, starts, Trail(topo, q.pattern, w, c, 1), down);
    HopsRidden(topo, q, w, c, cur + down, starts, Trail(topo, q.pattern, w, c, 1) + Legs(topo, down), up);
  }

  lemma HopsRidden(topo: Topo, q: Wish, w: Written, c: nat, cur: seq<Hop>, starts: seq<nat>, legs: seq<Leg>, more: seq<Hop>)
    requires Riding(topo, q, w, c, cur, starts, legs) && HopsOk(topo, more) && AllNear(topo, q, more) && (topo.nets != [] ==> cur != [])
    requires forall k :: 0 <= k < |more| ==> !more[k].b.AtNet?
    ensures Riding(topo, q, w, c, cur + more, starts, legs + Legs(topo, more))
  {
    hide Near, StartRule, ReturnRule, ListedNic;
    LegsConcat(topo, cur, more);
  }

  lemma HopsAccounted(topo: Topo, stock: Stock, q: Wish, linkBw: seq<real>, nHops: int, netBw: seq<real>,
                      done: seq<seq<Hop>>, cur: seq<Hop>, starts: seq<nat>, more: seq<Hop>)
    requires ValidTopo(topo) && Accounted(topo, stock, q, linkBw, nHops, netBw, done, cur, starts)
    ensures Accounted(topo, stock, q, After(topo, q, linkBw, more), nHops + Length(topo, more), netBw, done, cur + more, starts)
  {
    hide ValidTopo, After, AfterAll, Length, LengthAll, NicsAfford, NicAfter;
    AfterConcat(topo, q, AfterAll(topo, q, stock.bw, done), cur, more);
  }
}
