/**
 The backtracking search for channels (src/graph/search.cc, ncclTopoSearchRec and the functions it
 recurses through). The search charges link and NIC bandwidth, marks GPUs as used, counts channels
 and hops, and must leave all of it as it found it; what it keeps is the best graph so far.
 */
module TopoSearch {
  import opened Arith
  import opened TopoLinks
  import opened TopoGraph
  import opened TopoRoutes
  import opened TopoStages
  import opened TopoOffers

  class Search {
    const topo: Topo
    var linkBw: seq<real>
    var netBw: seq<real>
    var used: seq<set<nat>>   // per GPU, the channels it is in
    var graph: Graph
    var best: Graph
    // For the specification: what there was at first, the hops of the complete channels and of the one under way, and the NICs they start from.
    ghost const stock: Stock
    ghost const first: Graph
    ghost var done: seq<seq<Hop>>
    ghost var cur: seq<Hop>
    ghost var starts: seq<nat>

    constructor (topo: Topo, linkBw: seq<real>, netBw: seq<real>, graph: Graph, best: Graph)
      requires ValidTopo(topo) && |linkBw| == |topo.links| && NonNeg(linkBw) && |netBw| == |topo.nets|
      requires GraphOk(topo, graph) && graph.nChannels == 0
      requires RowsOk(topo, best)
      ensures this.topo == topo && Sound() && AtStart() && Fresh(this.used, 0)
      ensures this.linkBw == linkBw && this.netBw == netBw && this.graph == graph && this.best == best
      ensures stock == Stock(linkBw, netBw, graph.nHops) && first == best
    {
      this.topo := topo;
      this.linkBw := linkBw;
      this.netBw := netBw;
      this.used := seq(|topo.gpus|, _ => {});
      this.graph := graph;
      this.best := best;
      this.stock := Stock(linkBw, netBw, graph.nHops);
      this.first := best;
      this.done, this.cur, this.starts := [], [], [];
      new;
      NothingTaken(topo, stock, WishOf(graph));
    }

    ghost predicate Valid()
      reads this
    {
      && ValidTopo(topo) && GraphOk(topo, graph)
      && |linkBw| == |topo.links| && NonNeg(linkBw)
      && |netBw| == |topo.nets| && |used| == |topo.gpus|
    }

    /**
     What is left is what there was without the hops so far; complete channels run over their hops; and what is
     kept is what there was at first or a graph with enough channels that the node can carry.
     */
    ghost predicate Sound()
      reads this
    {
      && Valid() && RowsOk(topo, graph) && RowsOk(topo, best) && |done| == graph.nChannels
      && Accounted(topo, stock, WishOf(graph), linkBw, graph.nHops, netBw, done, cur, starts)
      && DoneOk(topo, WishOf(graph), Mem(), done, starts)
      && (best == first || (Affordable(topo, stock, best) && best.nChannels >= best.minChannels))
    }

    lemma SoundIsValid()
      requires Sound()
      ensures Valid() && RowsOk(topo, graph) && |topo.gpus| >= 1 && |done| == graph.nChannels
    {
      SomeGpu(topo);
    }

    lemma SoundAccounts()
      requires Sound()
      ensures ValidTopo(topo) && |topo.gpus| >= 1 && GraphOk(topo, graph) && RowsOk(topo, graph) && |netBw| == |topo.nets| && |used| == |topo.gpus|
      ensures |done| == graph.nChannels <= |graph.inter| == |graph.intra| == graph.maxChannels
      ensures Accounted(topo, stock, WishOf(graph), linkBw, graph.nHops, netBw, done, cur, starts)
    {
      hide Accounted, ValidTopo, NonNeg, RowsDone, DoneOk, Affordable;
      SomeGpu(topo);
    }

    /** What is kept has as much bandwidth as the wanted channels would have. */
    ghost predicate Perfect()
      reads this
    {
      graph.pattern.Nvls? || Total(best) >= Wanted(graph.maxChannels, graph.bwIntra)
    }

    /** No hop of the next channel has been taken. */
    ghost predicate AtStart()
      reads this
    {
      cur == [] && |starts| == if topo.nets == [] then 0 else graph.nChannels
    }

    /** Everything the search has to restore. */
    ghost function Snap(): (seq<real>, seq<real>, seq<set<nat>>, Graph, seq<seq<Hop>>, seq<Hop>, seq<nat>)
      reads this
    {
      (linkBw, netBw, used, Bare(graph), done, cur, starts)
    }

    ghost function Mem(): Written
      reads this
    {
      WrittenOf(graph)
    }

    /** Nothing better goes on from there, in one of these orders. */
    ghost predicate Tried(orders: set<Order>, p: Part)
      reads this
    {
      Beaten(topo, stock, AimOf(graph), best, orders, p)
    }

    /** The next channel has its first `step` GPUs. */
    ghost function Past(step: nat, backToNet: int): Part
      reads this
    {
      Part(Mem(), done, starts, cur, Ranks(Mem(), graph.nChannels, step), Been(topo, graph.pattern, backToNet))
    }

    /** ... and goes to GPU `g`, or has got there. */
    ghost function At(step: nat, g: nat, backToNet: int): Part
      reads this
    {
      Part(Mem(), done, starts, cur, RanksTo(topo, Mem(), graph.nChannels, step, g), Been(topo, graph.pattern, backToNet))
    }

    /** ... is complete. */
    ghost function Whole(): Part
      reads this
    {
      Part(Mem(), done, starts, cur, Ranks(Mem(), graph.nChannels, |topo.gpus|), true)
    }

    /** ... is about to start. */
    ghost function Outset(): Part
      reads this
    {
      Part(Mem(), done, starts, cur, [], false)
    }

    // -------------------------------------------------------------- paths

    /** ncclTopoFollowPath: take (or give back) the bandwidth of a path, all of it or nothing. */
    method FollowPath(a: End, b: End, mult: int) returns (ok: bool)
      requires Valid() && (a == Nowhere || IsEnd(topo, a)) && IsEnd(topo, b)
      modifies this`linkBw, this`graph
      ensures Valid()
      ensures var p := topo.path(a, b);
        var bw := Times(Cost(old(graph), a, b), mult);
        if a == Nowhere then ok && linkBw == old(linkBw) && graph == old(graph)
        else if ok then
          linkBw == Charged(topo, old(linkBw), a, p, |p.links|, bw) && graph == old(graph).(nHops := old(graph.nHops) + mult * |p.links|)
        else linkBw == old(linkBw) && graph == old(graph)
      ensures mult <= 0 ==> ok
      ensures a != Nowhere && mult > 0 ==> (ok <==> Passable(topo, old(graph), old(linkBw), Hop(a, b, mult)))
    {
      if a == Nowhere { return true; }
      var path := topo.path(a, b);
      var revPath := topo.path(b, a);
      var intra := (a.AtGpu? || a.AtNvs?) && (b.AtGpu? || b.AtNvs?);
      var bw := if intra then graph.bwIntra else graph.bwInter;
      var kind := if intra then graph.typeIntra else graph.typeInter;
      if mult == 1 && path.kind > kind { return false; }
      if mult == 1 && (graph.pattern.BalancedTree? || graph.pattern.Tree? || graph.pattern.SplitTree?) && revPath.kind > kind {
        return false;
      }
      bw := bw * mult as real;
      assert PathOk(topo, path);
      assert bw == Times(Cost(graph, a, b), mult);
      assert (mult >= 0 ==> bw >= 0.0) && (mult <= 0 ==> bw <= 0.0);
      hide Charged, ValidTopo;
      var left, step := FollowSteps(topo, linkBw, a, path, |path.links|, bw);
      if step < |path.links| {
        var back, _ := FollowSteps(topo, left, a, path, step, -bw);
        ChargeUndone(topo, linkBw, a, path, step, bw);
        linkBw := back;
        return false;
      }
      linkBw := left;
      graph := graph.(nHops := graph.nHops + mult * |path.links|);
      return true;
    }

    /** Take a hop to a GPU, if there is bandwidth; from nowhere there is nothing to take. */
    method Take(a: End, g: nat) returns (ok: bool)
      requires Sound() && (a == Nowhere || IsEnd(topo, a)) && g < |topo.gpus|
      modifies this`linkBw, this`graph, this`cur
      ensures Sound() && graph == old(graph).(nHops := graph.nHops)
      ensures ok ==> cur == Ridden(old(cur), a, g) && (a != Nowhere ==> Near(topo, WishOf(graph), Hop(a, AtGpu(g), 1)))
      ensures !ok ==> cur == old(cur) && linkBw == old(linkBw) && graph == old(graph)
      ensures !ok ==> a != Nowhere && Lacks(topo, stock, WishOf(graph), done, cur, Hop(a, AtGpu(g), 1))
    {
      hide ValidTopo, NonNeg, Charged, Times, RowsDone, RowOk, Accounted, DoneOk, Affordable, Near, HopCost, Lacks;
      PathIsOk(topo, a, AtGpu(g));
      ok := FollowPath(a, AtGpu(g), 1);
      GpuHopCost(old(graph), a, g);
      if !ok { HopLacks(topo, stock, WishOf(graph), linkBw, graph.nHops, netBw, done, cur, starts, Hop(a, AtGpu(g), 1)); }
      if ok && a != Nowhere {
        HopAccounted(topo, stock, WishOf(graph), old(linkBw), old(graph.nHops), netBw, done, cur, starts, Hop(a, AtGpu(g), 1));
      }
      if ok { cur := Ridden(cur, a, g); }
    }

    /** Give back the last hop, which led to a GPU. */
    method Give(a: End, g: nat, ghost before: seq<Hop>)
      requires Sound() && (a == Nowhere || IsEnd(topo, a)) && g < |topo.gpus| && cur == Ridden(before, a, g)
      modifies this`linkBw, this`graph, this`cur
      ensures Sound() && graph == old(graph).(nHops := graph.nHops) && cur == before
    {
      hide ValidTopo, NonNeg, Charged, Times, RowsDone, RowOk, Accounted, DoneOk, Affordable, HopCost;
      PathIsOk(topo, a, AtGpu(g));
      ghost var q := WishOf(graph);
      var ok := FollowPath(a, AtGpu(g), -1);
      if a != Nowhere {
        GpuHopCost(graph, a, g);
        HopGiven(topo, stock, q, old(linkBw), old(graph.nHops), netBw, done, before, starts, Hop(a, AtGpu(g), 1), Cost(old(graph), a, AtGpu(g)));
      }
      cur := before;
    }

    /** Mark a GPU as used by the next channel, or not any more. */
    method Mark(g: nat)
      requires Sound() && g < |topo.gpus|
      modifies this`used
      ensures Sound() && g < |old(used)| && used == old(used)[g := Toggle(old(used)[g], graph.nChannels)]
    {
      hide ValidTopo, NonNeg, RowsDone, RowOk, Accounted, DoneOk, Affordable;
      used := used[g := Toggle(used[g], graph.nChannels)];
    }

    /** ncclTopoSearchTryGpu: go to a GPU if there is bandwidth, go on from there, and come back. */
    method TryGpu(step: nat, backToNet: int, backToFirst: int, order: Order, t: int, from: End, g: nat) returns (t': int)
      requires Sound() && backToFirst == BackToFirst(topo, graph.pattern) && graph.nChannels < graph.maxChannels && Fresh(used, graph.nChannels + 1)
      requires ToGpu(topo, WishOf(graph), Mem(), used, graph.nChannels, cur, starts, step, backToNet, order, from, g)
      modifies this
      ensures Sound() && Snap() == old(Snap()) && NotWorse(graph.pattern, old(best), best) && t' <= t
      ensures t' < 0 <= t ==> Perfect()
      ensures Kept(old(Mem()), Mem(), old(graph.nChannels), step, Been(topo, graph.pattern, backToNet))
      ensures t' > 0 ==> Tried({order}, old(At(step, g, backToNet)))
      decreases 0, Max(t, 0), 1
    {
      hide ValidTopo, NonNeg, Fresh, RowsDone, RowOk, Kept, Below, NotWorse, Been, Accounted, DoneOk, Affordable;
      hide ToGpu, OnGpu, PastGpu, Arrived, Chosen, Beaten, AllBeaten, Lacks, Ranks, RanksTo, Total, Wanted;
      hide Near, Sound, Toggle, Valid;
      SoundAccounts();
      t' := t;
      var c := graph.nChannels;
      ghost var q, before, p := WishOf(graph), cur, At(step, g, backToNet);
      KeptRefl(Mem(), c, step, Been(topo, graph.pattern, backToNet));
      Unchanged(graph.pattern, best);
      ToGpuFacts(topo, q, Mem(), used, c, cur, starts, step, backToNet, order, from, g);
      var ok := Take(from, g);
      if !ok {
        GpuTried(topo, stock, AimOf(graph), best, p, used, step, backToNet, order, from, g);
      } else {
        GpuReached(topo, q, Mem(), used, c, before, starts, step, backToNet, order, from, g);
        t' := Visit(step, backToNet, backToFirst, order, t', g);
        if t' > 0 { GpuTried(topo, stock, AimOf(graph), best, p, old(used), step, backToNet, order, from, g); }
        Give(from, g, before);
        SoundAccounts();
        AccountedSame(topo, stock, q, old(linkBw), old(graph.nHops), old(netBw), linkBw, graph.nHops, netBw, done, cur, starts);
      }
    }

    /** Mark the GPU just reached while the channel goes on from it. */
    method Visit(step: nat, backToNet: int, backToFirst: int, order: Order, t: int, g: nat) returns (t': int)
      requires Sound() && backToFirst == BackToFirst(topo, graph.pattern) && graph.nChannels < graph.maxChannels && Fresh(used, graph.nChannels + 1)
      requires step < |topo.gpus| && g < |topo.gpus| && g < |used|
      requires OnGpu(topo, WishOf(graph), Mem(), used[g := Toggle(used[g], graph.nChannels)], graph.nChannels, cur, starts, step, backToNet, order, g)
      modifies this
      ensures Sound() && Snap() == old(Snap()) && NotWorse(graph.pattern, old(best), best) && t' <= t
      ensures t' < 0 <= t ==> Perfect()
      ensures Kept(old(Mem()), Mem(), old(graph.nChannels), step, Been(topo, graph.pattern, backToNet))
      ensures t' > 0 ==> Tried({order}, old(At(step, g, backToNet)))
      decreases 0, Max(t, 0), 1, 0
    {
      hide ValidTopo, NonNeg, Fresh, RowsDone, RowOk, Kept, Below, NotWorse, Been, Accounted, DoneOk, Affordable;
      hide ToGpu, OnGpu, PastGpu, Arrived, Chosen, Beaten, AllBeaten, Lacks, Ranks, RanksTo, Total, Wanted;
      hide Sound, Toggle, Valid;
      FreshMarked(used, graph.nChannels, g);
      Mark(g);
      t' := RecGpu(g, step, backToNet, backToFirst, order, t);
      ToggleTwice(old(used), g, graph.nChannels);
      Mark(g);
    }

    /** Write the GPU just reached into the row of the channel. */
    method Put(gpu: nat, step: nat, ghost backToNet: int, ghost order: Order)
      requires Sound() && graph.nChannels < graph.maxChannels
      requires OnGpu(topo, WishOf(graph), Mem(), used, graph.nChannels, cur, starts, step, backToNet, order, gpu)
      modifies this`graph
      ensures Sound() && graph == old(graph).(intra := graph.intra) && Kept(old(Mem()), Mem(), graph.nChannels, step, Been(topo, graph.pattern, backToNet))
      ensures OnGpu(topo, WishOf(graph), Mem(), used, graph.nChannels, cur, starts, step, backToNet, order, gpu)
      ensures backToNet != step ==> PastGpu(topo, WishOf(graph), Mem(), used, graph.nChannels, cur, starts, step, backToNet, order, gpu)
    {
      hide ValidTopo, NonNeg, Fresh, RowsDone, RowOk, Kept, Below, NotWorse, Been, Accounted, DoneOk, Affordable;
      hide ToGpu, OnGpu, PastGpu, Arrived, Chosen, Beaten, AllBeaten, Lacks, Ranks, RanksTo, Total, Wanted;
      SoundIsValid();
      OnGpuFacts(topo, WishOf(graph), Mem(), used, graph.nChannels, cur, starts, step, backToNet, order, gpu);
      var c := graph.nChannels;
      ghost var q, back := WishOf(graph), Been(topo, graph.pattern, backToNet);
      PutKeeps(topo, graph, used, c, gpu, step, order);
      PutIsKept(Mem(), c, step, back, topo.gpus[gpu]);
      GpuPut(topo, graph, used, cur, starts, step, backToNet, order, gpu);
      graph := graph.(intra := graph.intra[c := graph.intra[c][step := topo.gpus[gpu]]]);
      KeptIsBelow(old(Mem()), Mem(), c, step, back);
      DoneKept(topo, q, old(Mem()), Mem(), done, starts, starts);
    }

    /** ncclTopoSearchRecGpu: the channel has reached `gpu` at position `step`; try all ways to go on. */
    method RecGpu(gpu: nat, step: nat, backToNet: int, backToFirst: int, order: Order, t: int) returns (t': int)
      requires Sound() && graph.nChannels < graph.maxChannels && Fresh(used, graph.nChannels + 1) && step <= |topo.gpus|
      requires step < |topo.gpus| ==> backToFirst == BackToFirst(topo, graph.pattern)
      requires step < |topo.gpus| ==>
        OnGpu(topo, WishOf(graph), Mem(), used, graph.nChannels, cur, starts, step, backToNet, order, gpu)
      requires step == |topo.gpus| ==>
        Arrived(topo, WishOf(graph), Mem(), graph.nChannels, cur, starts) && Chosen(topo, WishOf(graph), Mem(), graph.nChannels, starts)
      modifies this
      ensures Sound() && Snap() == old(Snap()) && NotWorse(graph.pattern, old(best), best) && t' <= t
      ensures t' < 0 <= t ==> Perfect()
      ensures Kept(old(Mem()), Mem(), old(graph.nChannels), step, Been(topo, graph.pattern, backToNet))
      ensures step == |topo.gpus| ==> Below(old(Mem()), Mem(), old(graph.nChannels) + 1)
      ensures t' > 0 && step < |topo.gpus| ==> Tried({order}, old(At(step, gpu, backToNet)))
      ensures t' > 0 && step == |topo.gpus| ==> Tried(ANY, old(Whole()))
      decreases 0, Max(t, 0), 0
    {
      hide ValidTopo, NonNeg, Fresh, RowsDone, RowOk, Kept, Below, NotWorse, Been, Accounted, DoneOk, Affordable;
      hide ToGpu, OnGpu, PastGpu, Arrived, Chosen, Beaten, AllBeaten, Lacks, Ranks, RanksTo, Total, Wanted, Sound;
      hide Valid;
      SoundAccounts();
      t' := t;
      var c := graph.nChannels;
      ghost var back := Been(topo, graph.pattern, backToNet);
      KeptRefl(Mem(), c, step, back);
      BelowRefl(Mem(), c + 1);
      Unchanged(graph.pattern, best);
      if t' <= 0 { return; }
      t' := t' - 1;
      if step == |topo.gpus| {
        t' := Complete(t');
        BelowIsKept(old(Mem()), Mem(), c, step, back);
      } else {
        Put(gpu, step, backToNet, order);
        ghost var put := Mem();
        t' := GoOn(gpu, step, backToNet, backToFirst, order, t');
        RanksKept(topo, old(Mem()), put, c, step, back, gpu);
        BeatenKept(topo, stock, AimOf(graph), best, {order}, old(At(step, gpu, backToNet)), put, step);
        KeptTrans(old(Mem()), put, Mem(), c, step, back);
      }
    }

    /** ... back to a NIC, through the NVSwitch, to the next GPU, around to the first one, or done. */
    method GoOn(gpu: nat, step: nat, backToNet: int, backToFirst: int, order: Order, t: int) returns (t': int)
      requires Sound() && graph.nChannels < graph.maxChannels && Fresh(used, graph.nChannels + 1) && backToFirst == BackToFirst(topo, graph.pattern)
      requires OnGpu(topo, WishOf(graph), Mem(), used, graph.nChannels, cur, starts, step, backToNet, order, gpu)
      requires backToNet != step ==> PastGpu(topo, WishOf(graph), Mem(), used, graph.nChannels, cur, starts, step, backToNet, order, gpu)
      modifies this
      ensures Sound() && Snap() == old(Snap()) && NotWorse(graph.pattern, old(best), best) && t' <= t
      ensures t' < 0 <= t ==> Perfect()
      ensures Kept(old(Mem()), Mem(), old(graph.nChannels), step, Been(topo, graph.pattern, backToNet))
      ensures t' > 0 ==> Tried({order}, old(At(step, gpu, backToNet)))
      decreases 0, Max(t, 0), 4
    {
      hide ValidTopo, NonNeg, Fresh, RowsDone, RowOk, Kept, Below, NotWorse, Been, Accounted, DoneOk, Affordable;
      hide ToGpu, OnGpu, PastGpu, Arrived, Chosen, Beaten, AllBeaten, Lacks, Ranks, RanksTo, Total, Wanted, Sound;
      hide Valid;
      SoundAccounts();
      t' := t;
      var c := graph.nChannels;
      ghost var w, back := Mem(), Been(topo, graph.pattern, backToNet);
      KeptRefl(w, c, step, back);
      Unchanged(graph.pattern, best);
      OnGpuFacts(topo, WishOf(graph), w, used, c, cur, starts, step, backToNet, order, gpu);
      if step != backToNet { PastIsAt(topo, WishOf(graph), w, used, c, cur, starts, step, backToNet, order, gpu); }
      if step == backToNet {
        if topo.nets != [] { t' := BackToNic(gpu, step, backToFirst, order, t'); }
      } else if graph.pattern.Nvls? {
        t' := TryNvls(gpu, backToNet, order, t');
        NvlsBeaten(topo, stock, AimOf(graph), best, {order}, old(At(step, gpu, backToNet)));
        KeptLess(w, Mem(), c, |topo.gpus|, true, step, back);
      } else if step < |topo.gpus| - 1 {
        t' := NextGpus(gpu, step, backToNet, backToFirst, order, t');
        KeptLess(w, Mem(), c, step + 1, back, step, back);
      } else if step == backToFirst {
        t' := LoopBack(gpu, step, backToNet, order, t');
        KeptLess(w, Mem(), c, |topo.gpus|, true, step, back);
      } else {
        t' := EndHere(gpu, step, backToNet, order, t');
        KeptLess(w, Mem(), c, |topo.gpus|, true, step, back);
      }
    }

    /** The channel ends at its last GPU. */
    method EndHere(gpu: nat, step: nat, backToNet: int, order: Order, t: int) returns (t': int)
      requires Sound() && graph.nChannels < graph.maxChannels && Fresh(used, graph.nChannels + 1) && step + 1 == |topo.gpus|
      requires !graph.pattern.Nvls? && !(graph.pattern.Ring? && topo.nets == [])
      requires PastGpu(topo, WishOf(graph), Mem(), used, graph.nChannels, cur, starts, step, backToNet, order, gpu)
      modifies this
      ensures Sound() && Snap() == old(Snap()) && NotWorse(graph.pattern, old(best), best) && t' <= t
      ensures t' < 0 <= t ==> Perfect()
      ensures Kept(old(Mem()), Mem(), old(graph.nChannels), |topo.gpus|, true)
      ensures t' > 0 ==> Tried({order}, old(Past(step + 1, backToNet)))
      decreases 0, Max(t, 0), 2
    {
      hide ValidTopo, NonNeg, Fresh, RowsDone, RowOk, Kept, Below, NotWorse, Been, Accounted, DoneOk, Affordable;
      hide ToGpu, OnGpu, PastGpu, Arrived, Chosen, Beaten, AllBeaten, Lacks, Ranks, RanksTo, Total, Wanted, Sound;
      hide Valid;
      SoundAccounts();
      ghost var q, c := WishOf(graph), graph.nChannels;
      RowEnds(topo, q, Mem(), used, c, cur, starts, step, backToNet, order, gpu);
      LeadsBack(topo, q, Mem(), c, cur, starts, |topo.gpus|, backToNet);
      LeadsHome(topo, q, Mem(), c, cur, starts, backToNet);
      t' := RecGpu(gpu, |topo.gpus|, -1, -1, order, t);
      if t' > 0 {
        BeatenFewer(topo, stock, AimOf(graph), best, {order}, old(Whole()));
        BackBeaten(topo, stock, AimOf(graph), best, {order}, old(Past(step + 1, backToNet)), backToNet);
      }
      BelowIsKept(old(Mem()), Mem(), c, |topo.gpus|, true);
    }

    /** A complete channel joins the others. */
    method CloseChannel()
      requires Sound() && graph.nChannels < graph.maxChannels
      requires Arrived(topo, WishOf(graph), Mem(), graph.nChannels, cur, starts) && Chosen(topo, WishOf(graph), Mem(), graph.nChannels, starts)
      modifies this`graph, this`done, this`cur
      ensures Sound() && AtStart() && graph == old(graph).(nChannels := old(graph).nChannels + 1) && done == old(done) + [old(cur)]
    {
      hide ValidTopo, NonNeg, RowOk, Below, Accounted, DoneOk, Affordable, Arrived;
      ghost var q := WishOf(graph);
      ArrivedStarts(topo, q, Mem(), graph.nChannels, cur, starts);
      ChannelDone(topo, q, Mem(), done, cur, starts);
      DoneAccounted(topo, stock, q, linkBw, graph.nHops, netBw, done, cur, starts);
      graph := graph.(nChannels := graph.nChannels + 1);
      done, cur := done + [cur], [];
    }

    /** ... and is taken up again. */
    method ReopenChannel(ghost before: seq<seq<Hop>>, ghost hops: seq<Hop>)
      requires Sound() && cur == [] && done == before + [hops]
      modifies this`graph, this`done, this`cur
      ensures Sound() && graph == old(graph).(nChannels := |before|) && done == before && cur == hops
    {
      hide ValidTopo, NonNeg, RowOk, RowsDone, Below, Accounted, DoneOk, Affordable;
      ghost var q := WishOf(graph);
      DoneLess(topo, q, Mem(), before, hops, starts);
      ReopenAccounted(topo, stock, q, linkBw, graph.nHops, netBw, before, hops, starts);
      graph := graph.(nChannels := graph.nChannels - 1);
      if !graph.pattern.Nvls? { RowsLess(topo, graph.intra, graph.nChannels); }
      done, cur := before, hops;
    }

    /** Keep the graph if it is better; with as many channels as wanted the search is over. */
    method KeepIfBetter(t: int) returns (t': int)
      requires Sound() && AtStart()
      modifies this`best
      ensures Sound() && t' == (if Better(topo, graph, old(best)) && graph.nChannels == graph.maxChannels then -1 else t)
      ensures t' < 0 <= t ==> Perfect()
      ensures NotWorse(graph.pattern, old(best), best) && best == (if Better(topo, graph, old(best)) then graph else old(best))
    {
      hide ValidTopo, NonNeg, RowOk, RowsDone, Better, NotWorse, Accounted, DoneOk, Affordable, Total, Wanted;
      t' := t;
      Unchanged(graph.pattern, best);
      AllWanted(graph);
      if Better(topo, graph, best) {
        KeptIsNotWorse(topo, graph, best);
        TakenIsCarried(topo, stock, graph, linkBw, netBw, done, starts);
        best := graph;
        if graph.nChannels == graph.maxChannels { t' := -1; }
      }
    }

    /** A channel is complete: keep the graph if it is better, and look for one more channel. */
    method Complete(t: int) returns (t': int)
      requires Sound() && graph.nChannels < graph.maxChannels && Fresh(used, graph.nChannels + 1)
      requires Arrived(topo, WishOf(graph), Mem(), graph.nChannels, cur, starts) && Chosen(topo, WishOf(graph), Mem(), graph.nChannels, starts)
      modifies this
      ensures Sound() && Snap() == old(Snap()) && NotWorse(graph.pattern, old(best), best) && t' <= Max(t, -1)
      ensures t' < 0 <= t ==> Perfect()
      ensures Below(old(Mem()), Mem(), old(graph.nChannels) + 1)
      ensures !graph.pattern.Nvls? ==> !Better(topo, old(graph).(nChannels := old(graph).nChannels + 1), best)
      ensures t' > 0 ==> Tried(ANY, old(Whole()))
      decreases 0, Max(t, 0), 7
    {
      hide ValidTopo, NonNeg, Fresh, RowsDone, RowOk, Kept, Below, NotWorse, Been, Accounted, DoneOk, Affordable;
      hide ToGpu, OnGpu, PastGpu, Arrived, Chosen, Beaten, AllBeaten, Lacks, Ranks, RanksTo, Total, Wanted;
      hide Better, LengthAll;
      CloseChannel();
      ghost var whole := graph;
      SoundIsValid();
      AccountedHops(topo, stock, WishOf(graph), linkBw, graph.nHops, netBw, done, starts);
      WholeRanks(topo, old(graph));
      BelowRefl(Mem(), graph.nChannels);
      t' := KeepIfBetter(t);
      ghost var kept := best;
      Unchanged(graph.pattern, best);
      if graph.nChannels < graph.maxChannels { t' := SearchRec(t'); }
      NotWorseThrough(whole.pattern, old(best), kept, best);
      if !whole.pattern.Nvls? { StaysBeaten(topo, whole, kept, best); }
      if t' > 0 { DoneBeaten(topo, stock, AimOf(graph), best, old(Whole()), whole); }
      ReopenChannel(old(done), old(cur));
      AccountedSame(topo, stock, WishOf(graph), old(linkBw), old(graph.nHops), old(netBw), linkBw, graph.nHops, netBw, done, cur, starts);
    }

    /** ncclTopoSearchRec: look for the next channel. */
    method SearchRec(t: int) returns (t': int)
      requires Sound() && AtStart() && graph.nChannels < graph.maxChannels && Fresh(used, graph.nChannels)
      modifies this
      ensures Sound() && Snap() == old(Snap()) && NotWorse(graph.pattern, old(best), best) && t' <= Max(t, -1)
      ensures t' < 0 <= t ==> Perfect()
      ensures Below(old(Mem()), Mem(), old(graph.nChannels))
      ensures t' > 0 ==> Tried(ANY, old(Outset()))
      decreases if graph.nChannels == 0 then 1 else 0, Max(t, 0), 6
    {
      hide ValidTopo, NonNeg, Fresh, RowsDone, RowOk, Kept, Below, NotWorse, Been, Accounted, DoneOk, Affordable;
      hide ToGpu, OnGpu, PastGpu, Arrived, Chosen, Beaten, AllBeaten, Lacks, Ranks, RanksTo, Total, Wanted, Sound;
      hide Valid;
      SoundAccounts();
      if topo.nets != [] {
        t' := RecNet(t);
      } else {
        t' := Intra(t);
        KeptIsBelow(old(Mem()), Mem(), graph.nChannels, 0, false);
      }
    }

    /** Without NICs: the head of an NVLS channel, index order or the previous channel again, and every GPU as the first one. */
    method Intra(t: int) returns (t': int)
      requires Sound() && AtStart() && topo.nets == [] && graph.nChannels < graph.maxChannels && Fresh(used, graph.nChannels)
      modifies this
      ensures Sound() && Snap() == old(Snap()) && NotWorse(graph.pattern, old(best), best) && t' <= t
      ensures t' < 0 <= t ==> Perfect()
      ensures Kept(old(Mem()), Mem(), old(graph.nChannels), 0, false)
      ensures t' > 0 ==> Tried(ANY, old(Outset()))
      decreases 0, Max(t, 0), 5
    {
      hide ValidTopo, NonNeg, Fresh, RowsDone, RowOk, Kept, Below, NotWorse, Been, Accounted, DoneOk, Affordable;
      hide ToGpu, OnGpu, PastGpu, Arrived, Chosen, Beaten, AllBeaten, Lacks, Ranks, RanksTo, Total, Wanted, Sound;
      hide Valid;
      hide SetsOut;
      SoundAccounts();
      t' := t;
      var c := graph.nChannels;
      ghost var q := WishOf(graph);
      KeptRefl(Mem(), c, 0, false);
      NoNicSetsOut(topo, q, Mem(), c, starts);
      if graph.pattern.Nvls? {
        t' := StartAt(Nowhere, c, Free, t');
        NvlsBeaten(topo, stock, AimOf(graph), best, ANY, old(Outset()));
      } else {
        if c == 0 {
          t' := StartAt(Nowhere, 0, Pci, t');
          if t' > 0 { PciBeaten(topo, stock, AimOf(graph), best, old(Outset())); }
        } else {
          t' := ReplayFrom(Nowhere, t');
        }
        ghost var before, kept := Mem(), best;
        SetsOutKept(topo, q, old(Mem()), before, c, cur, starts, Nowhere);
        KeptRefl(before, c, 0, false);
        Unchanged(graph.pattern, best);
        if !graph.sameChannels || c == 0 {
          t' := FromAnyGpu(t');
          BeatenKept(topo, stock, AimOf(graph), best, {Free}, old(Outset()), before, 0);
        }
        if t' > 0 {
          if c == 0 { BeatenStays(topo, stock, AimOf(graph), kept, best, {Pci}, old(Outset())); }
          else { BeatenStays(topo, stock, AimOf(graph), kept, best, {Replay}, old(Outset())); }
          OrdersBeaten(topo, stock, AimOf(graph), best, old(Outset()));
        }
        KeptTrans(old(Mem()), before, Mem(), c, 0, false);
        NotWorseThrough(graph.pattern, old(best), kept, best);
      }
    }

    /** Try every GPU as the first one. */
    method FromAnyGpu(t: int) returns (t': int)
      requires Sound() && topo.nets == [] && !graph.pattern.Nvls? && graph.nChannels < graph.maxChannels && Fresh(used, graph.nChannels)
      requires (graph.sameChannels ==> graph.nChannels == 0) && SetsOut(topo, WishOf(graph), Mem(), graph.nChannels, cur, starts, Nowhere)
      modifies this
      ensures Sound() && Snap() == old(Snap()) && NotWorse(graph.pattern, old(best), best) && t' <= t
      ensures t' < 0 <= t ==> Perfect()
      ensures Kept(old(Mem()), Mem(), old(graph.nChannels), 0, false)
      ensures t' > 0 ==> Tried({Free}, old(Outset()))
      decreases 0, Max(t, 0), 3, 0
    {
      hide ValidTopo, NonNeg, Fresh, RowsDone, RowOk, Kept, Below, NotWorse, Been, Accounted, DoneOk, Affordable;
      hide ToGpu, OnGpu, PastGpu, Arrived, Chosen, Beaten, AllBeaten, Lacks, Ranks, RanksTo, Total, Wanted, Sound;
      hide Valid;
      hide SetsOut;
      SoundAccounts();
      t' := t;
      var c := graph.nChannels;
      KeptRefl(Mem(), c, 0, false);
      Unchanged(graph.pattern, best);
      ghost var p := Outset();
      ghost var order, parts := GpuRotation(|topo.gpus|, 0), FirstParts(topo, p, GpuRotation(|topo.gpus|, 0));
      NoneBeaten(topo, stock, AimOf(graph), best, {Free}, parts);
      for g := 0 to |topo.gpus|
        invariant Sound() && Snap() == old(Snap()) && NotWorse(graph.pattern, old(best), best) && t' <= t
        invariant t' < 0 <= t ==> Perfect()
        invariant Kept(old(Mem()), Mem(), c, 0, false)
        invariant t' > 0 ==> AllBeaten(topo, stock, AimOf(graph), best, {Free}, parts[..g])
      {
        ghost var now, kept := Mem(), best;
        SoundAccounts();
        SetsOutKept(topo, WishOf(graph), old(Mem()), now, c, cur, starts, Nowhere);
        t' := StartAt(Nowhere, g, Free, t');
        BeatenKept(topo, stock, AimOf(graph), best, {Free}, p.(ranks := [topo.gpus[g]]), now, 0);
        if t' > 0 {
          FirstPart(topo, p, 0, g);
          AllBeatenNext(topo, stock, AimOf(graph), kept, best, {Free}, parts, g);
        }
        KeptTrans(old(Mem()), now, Mem(), c, 0, false);
        NotWorseThrough(graph.pattern, old(best), kept, best);
      }
      if t' > 0 { FirstTried(topo, stock, AimOf(graph), best, p, 0); }
    }

    /** ncclTopoSearchTryGpu for the first GPU of a channel. */
    method StartAt(from: End, g: nat, order: Order, t: int) returns (t': int)
      requires Sound() && graph.nChannels < graph.maxChannels && Fresh(used, graph.nChannels)
      requires SetsOut(topo, WishOf(graph), Mem(), graph.nChannels, cur, starts, from)
      requires StartsWith(topo, WishOf(graph), Mem(), graph.nChannels, starts, g, order)
      modifies this
      ensures Sound() && Snap() == old(Snap()) && NotWorse(graph.pattern, old(best), best) && t' <= t
      ensures t' < 0 <= t ==> Perfect()
      ensures Kept(old(Mem()), Mem(), old(graph.nChannels), 0, false)
      ensures t' > 0 ==> Tried({order}, old(Outset()).(ranks := [topo.gpus[g]]))
      decreases 0, Max(t, 0), 2
    {
      hide ValidTopo, NonNeg, RowsDone, RowOk, Kept, NotWorse, BackToNet, BackToFirst, Accounted, DoneOk, Affordable;
      hide Leads, Beaten, RanksTo, Fresh, Prefix, InRow;
      SoundIsValid();
      EmptyPrefix(topo, graph.intra, used, graph.nChannels, g);
      FreshMono(used, graph.nChannels);
      NotBeen(topo, graph.pattern);
      FirstRank(topo, Mem(), graph.nChannels, g);
      t' := TryGpu(0, BackToNet(topo, graph.pattern), BackToFirst(topo, graph.pattern), order, t, from, g);
    }

    /** Try the previous channel's GPUs again. */
    method ReplayFrom(from: End, t: int) returns (t': int)
      requires Sound() && !graph.pattern.Nvls? && 1 <= graph.nChannels < graph.maxChannels && Fresh(used, graph.nChannels)
      requires SetsOut(topo, WishOf(graph), Mem(), graph.nChannels, cur, starts, from)
      modifies this
      ensures Sound() && Snap() == old(Snap()) && NotWorse(graph.pattern, old(best), best) && t' <= t
      ensures t' < 0 <= t ==> Perfect()
      ensures Kept(old(Mem()), Mem(), old(graph.nChannels), 0, false)
      ensures t' > 0 ==> Tried({Replay}, old(Outset()))
      decreases 0, Max(t, 0), 3, 0
    {
      hide NonNeg, Kept, NotWorse, Fresh, Accounted, DoneOk, Affordable, SetsOut, ValidTopo, RowsDone, RowOk, Beaten;
      SoundIsValid();
      PreviousFirst(topo, graph.intra, graph.nChannels);
      var g := FindGpu(graph.intra[graph.nChannels - 1][0]);
      t' := StartAt(from, g, Replay, t);
      if t' > 0 { ReplayBeaten(topo, stock, AimOf(graph), best, old(Outset()), g); }
    }

    /** Take bandwidth from every NIC that shares the port of NIC `n`. */
    method ShareNic(n: nat, bw: real)
      requires n < |topo.nets| == |netBw|
      modifies this`netBw
      ensures netBw == TakeFrom(topo, old(netBw), n, bw)
    {
      for i := 0 to |topo.nets|
        invariant |netBw| == |old(netBw)|
        invariant forall k :: 0 <= k < |netBw| ==> netBw[k] == if k < i then TakeFrom(topo, old(netBw), n, bw)[k] else old(netBw)[k]
      {
        if topo.nets[i].asic == topo.nets[n].asic && topo.nets[i].port == topo.nets[n].port {
          netBw := netBw[i := netBw[i] - bw];
        }
      }
    }

    /** ncclTopoSearchRecNet: start the channel from each NIC that has bandwidth left. */
    method RecNet(t: int) returns (t': int)
      requires Sound() && AtStart() && topo.nets != [] && graph.nChannels < graph.maxChannels && Fresh(used, graph.nChannels)
      modifies this
      ensures Sound() && Snap() == old(Snap()) && NotWorse(graph.pattern, old(best), best) && t' <= Max(t, -1)
      ensures t' < 0 <= t ==> Perfect()
      ensures Below(old(Mem()), Mem(), old(graph.nChannels))
      ensures t' > 0 ==> Tried(ANY, old(Outset()))
      decreases if graph.nChannels == 0 then 1 else 0, Max(t, 0), 5
    {
      hide NonNeg, Fresh, RowsDone, RowOk, Below, NotWorse, Accounted, DoneOk, Affordable, ValidTopo, Truncated;
      hide Beaten, Started, StartsTried, AllowedStart;
      SoundIsValid();
      t' := t;
      var c := graph.nChannels;
      var bw := Truncated(graph.bwInter);
      var nets := topo.allNets;
      NetsListed(topo);
      ghost var p, order := Outset(), Rotation(nets, c);
      NoStartTried(topo, stock, AimOf(graph), best, p, order);
      BelowRefl(Mem(), c);
      Unchanged(graph.pattern, best);
      for i := 0 to |nets|
        invariant Sound() && Snap() == old(Snap()) && NotWorse(graph.pattern, old(best), best) && t' <= Max(t, -1)
        invariant t' < 0 <= t ==> Perfect()
        invariant Below(old(Mem()), Mem(), c)
        invariant t' > 0 ==> StartsTried(topo, stock, AimOf(graph), best, p, order, i)
      {
        ghost var now, kept, t0 := Mem(), best, t';
        StartIff(topo, stock, graph, linkBw, netBw, p, now, nets[(c + i) % |nets|]);
        var n := nets[(c + i) % |nets|];
        if !(graph.pattern.Nvls? && i > 0) && !(graph.collNet && !topo.nets[n].collSupport) && !(netBw[n] < bw as real) &&
           !(graph.crossNic != 0 && c % 2 == 1 && topo.nets[n].id != graph.inter[c - 1].1) {
          t' := FromNic(n, bw, t');
          StartedKept(topo, stock, AimOf(graph), best, p, now, n);
          BelowTrans(old(Mem()), now, Mem(), c);
          NotWorseThrough(graph.pattern, old(best), kept, best);
        } else {
          Unchanged(graph.pattern, best);
          if graph.pattern.Nvls? { NvlsBeaten(topo, stock, AimOf(graph), best, ANY, Started(topo, p, n)); }
        }
        if t' > 0 { StartsTriedNext(topo, stock, AimOf(graph), kept, best, p, order, i); }
      }
      if t' > 0 { AllStartsTried(topo, stock, AimOf(graph), best, p, nets, c); }
    }

    /** One NIC of that loop: take its bandwidth, start the channel there, and give the bandwidth back. */
    method FromNic(n: nat, bw: int, t: int) returns (t': int)
      requires Sound() && AtStart() && n < |topo.nets| && graph.nChannels < graph.maxChannels && Fresh(used, graph.nChannels)
      requires bw == Truncated(graph.bwInter) && netBw[n] >= bw as real && StartRule(topo, WishOf(graph), Mem(), graph.nChannels, n)
      modifies this
      ensures Sound() && Snap() == old(Snap()) && NotWorse(graph.pattern, old(best), best) && t' <= Max(t, -1)
      ensures t' < 0 <= t ==> Perfect()
      ensures Below(old(Mem()), Mem(), old(graph.nChannels))
      ensures t' > 0 ==> Tried(ANY, Started(topo, old(Outset()), n))
      decreases if graph.nChannels == 0 then 1 else 0, Max(t, 0), 4
    {
      hide ValidTopo, NonNeg, Fresh, RowsDone, RowOk, Below, Kept, NotWorse, Accounted, DoneOk, Affordable, SetsOut, Beaten;
      var c := graph.nChannels;
      TakeStart(n, bw);
      ghost var now := Mem();
      t' := ChannelFrom(n, bw, t);
      GiveStart(n, bw, old(starts));
      KeptIsBelow(now, Mem(), c, 0, false);
      BelowTrans(old(Mem()), now, Mem(), c);
      AccountedSame(topo, stock, WishOf(graph), old(linkBw), old(graph.nHops), old(netBw), linkBw, graph.nHops, netBw, done, cur, starts);
    }

    /** Take the bandwidth of the NIC a channel starts from, and record the NIC. */
    method TakeStart(n: nat, bw: int)
      requires Sound() && AtStart() && n < |topo.nets| && graph.nChannels < graph.maxChannels
      requires bw == Truncated(graph.bwInter) && netBw[n] >= bw as real && StartRule(topo, WishOf(graph), Mem(), graph.nChannels, n)
      modifies this`netBw, this`graph, this`starts
      ensures Sound() && starts == old(starts) + [n] && Below(old(Mem()), Mem(), graph.nChannels)
      ensures graph == old(graph).(inter := graph.inter, latencyInter := topo.nets[n].latency)
      ensures SetsOut(topo, WishOf(graph), Mem(), graph.nChannels, cur, starts, AtNet(n))
      ensures Outset() == Started(topo, old(Outset()), n)
    {
      hide ValidTopo, NonNeg, RowsDone, RowOk, Below, TakeFrom, Accounted, DoneOk, Affordable, Leads, Truncated;
      SoundIsValid();
      var c := graph.nChannels;
      ghost var q := WishOf(graph);
      StartAccounted(topo, stock, q, linkBw, graph.nHops, netBw, done, starts, n);
      NicIsBelow(Mem(), c, topo.nets[n].id);
      graph := graph.(inter := graph.inter[c := (topo.nets[n].id, graph.inter[c].1)], latencyInter := topo.nets[n].latency);
      BelowFacts(topo, old(Mem()), Mem(), c);
      DoneKept(topo, q, old(Mem()), Mem(), done, starts, starts + [n]);
      StartKept(topo, q, old(Mem()), Mem(), c, n);
      ShareNic(n, bw as real);
      starts := starts + [n];
      LeadsOut(topo, q, Mem(), c, starts);
    }

    /** Give it back. */
    method GiveStart(n: nat, bw: int, ghost before: seq<nat>)
      requires Sound() && cur == [] && n < |topo.nets| && bw == Truncated(graph.bwInter) && starts == before + [n] && |done| <= |before|
      modifies this`netBw, this`starts
      ensures Sound() && starts == before
    {
      hide ValidTopo, NonNeg, RowsDone, RowOk, Below, TakeFrom, Accounted, DoneOk, Affordable, Truncated;
      ghost var q := WishOf(graph);
      ShareNic(n, -(bw as real));
      StartGiven(topo, stock, q, linkBw, graph.nHops, old(netBw), done, before, n);
      DoneShorter(topo, q, Mem(), done, starts, before);
      starts := before;
    }

    /** The ways to start a channel from NIC `n`: the head of an NVLS channel, the previous channel again, index order, the nearest GPUs. */
    method ChannelFrom(n: nat, bw: int, t: int) returns (t': int)
      requires bw == Truncated(graph.bwInter) && Sound() && n < |topo.nets| && graph.nChannels < graph.maxChannels && Fresh(used, graph.nChannels)
      requires SetsOut(topo, WishOf(graph), Mem(), graph.nChannels, cur, starts, AtNet(n))
      modifies this
      ensures Sound() && Snap() == old(Snap()) && NotWorse(graph.pattern, old(best), best) && t' <= Max(t, -1)
      ensures t' < 0 <= t ==> Perfect()
      ensures Kept(old(Mem()), Mem(), old(graph.nChannels), 0, false)
      ensures t' > 0 ==> Tried(ANY, old(Outset()))
      decreases if graph.nChannels == 0 then 1 else 0, Max(t, 0), 3, 2
    {
      hide ValidTopo, NonNeg, Fresh, RowsDone, RowOk, Kept, Below, NotWorse, Been, Accounted, DoneOk, Affordable;
      hide ToGpu, OnGpu, PastGpu, Arrived, Chosen, Beaten, AllBeaten, Lacks, Ranks, RanksTo, Total, Wanted, Sound;
      hide Valid;
      hide SetsOut;
      SoundAccounts();
      NearGpuOf(topo, n);
      t' := t;
      var c := graph.nChannels;
      KeptRefl(Mem(), c, 0, false);
      Unchanged(graph.pattern, best);
      SetsOutStarts(topo, WishOf(graph), Mem(), c, cur, starts, n);
      if graph.pattern.Nvls? {
        NvlsBeaten(topo, stock, AimOf(graph), best, ANY, old(Outset()));
        if c < |topo.allNets| {
          var gpu := topo.localGpu[n];
          if gpu != -1 { t' := StartAt(AtNet(n), gpu, Free, t'); }
          NvlsBeaten(topo, stock, AimOf(graph), best, ANY, old(Outset()));
        }
      } else {
        if c > 0 { t' := ReplayFrom(AtNet(n), t'); }
        ghost var now, kept := Mem(), best;
        SetsOutKept(topo, WishOf(graph), old(Mem()), now, c, cur, starts, AtNet(n));
        KeptRefl(now, c, 0, false);
        Unchanged(graph.pattern, best);
        if c == 0 || !graph.sameChannels { t' := FreshFrom(n, bw, t'); }
        BeatenKept(topo, stock, AimOf(graph), best, {Free}, old(Outset()), now, 0);
        if t' > 0 {
          if c > 0 { BeatenStays(topo, stock, AimOf(graph), kept, best, {Replay}, old(Outset())); }
          OrdersBeaten(topo, stock, AimOf(graph), best, old(Outset()));
        }
        KeptTrans(old(Mem()), now, Mem(), c, 0, false);
        NotWorseThrough(graph.pattern, old(best), kept, best);
      }
    }

    /** A new channel: in index order first, to set a reference, on a timer of its own; then from the nearest GPUs. */
    method FreshFrom(n: nat, bw: int, t: int) returns (t': int)
      requires bw == Truncated(graph.bwInter) && Sound() && n < |topo.nets| && graph.nChannels < graph.maxChannels && Fresh(used, graph.nChannels)
      requires !graph.pattern.Nvls? && (graph.sameChannels ==> graph.nChannels == 0)
      requires SetsOut(topo, WishOf(graph), Mem(), graph.nChannels, cur, starts, AtNet(n))
      modifies this
      ensures Sound() && Snap() == old(Snap()) && NotWorse(graph.pattern, old(best), best) && t' <= Max(t, -1)
      ensures t' < 0 <= t ==> Perfect()
      ensures Kept(old(Mem()), Mem(), old(graph.nChannels), 0, false)
      ensures t' > 0 ==> Tried({Free}, old(Outset()))
      decreases if graph.nChannels == 0 then 1 else 0, Max(t, 0), 3, 1
    {
      hide ValidTopo, NonNeg, Fresh, RowsDone, RowOk, Kept, Below, NotWorse, Been, Accounted, DoneOk, Affordable;
      hide ToGpu, OnGpu, PastGpu, Arrived, Chosen, Beaten, AllBeaten, Lacks, Ranks, RanksTo, Total, Wanted, Sound;
      hide Valid;
      hide SetsOut;
      SoundAccounts();
      t' := t;
      var c := graph.nChannels;
      KeptRefl(Mem(), c, 0, false);
      Unchanged(graph.pattern, best);
      if c == 0 && topo.nvs == 0 {
        var own := StartAt(AtNet(n), 0, Pci, 1024);
        if own == -1 { t' := -1; }
      }
      ghost var now, kept := Mem(), best;
      SetsOutKept(topo, WishOf(graph), old(Mem()), now, c, cur, starts, AtNet(n));
      t' := NearGpus(n, bw, t');
      BeatenKept(topo, stock, AimOf(graph), best, {Free}, old(Outset()), now, 0);
      KeptTrans(old(Mem()), now, Mem(), c, 0, false);
      NotWorseThrough(graph.pattern, old(best), kept, best);
    }

    /** Start from the GPUs nearest to NIC `n`: most bandwidth, then fewest hops. */
    method NearGpus(n: nat, bw: int, t: int) returns (t': int)
      requires bw == Truncated(graph.bwInter) && Sound() && n < |topo.nets| && graph.nChannels < graph.maxChannels && Fresh(used, graph.nChannels)
      requires !graph.pattern.Nvls? && (graph.sameChannels ==> graph.nChannels == 0)
      requires SetsOut(topo, WishOf(graph), Mem(), graph.nChannels, cur, starts, AtNet(n))
      modifies this
      ensures Sound() && Snap() == old(Snap()) && NotWorse(graph.pattern, old(best), best) && t' <= t
      ensures t' < 0 <= t ==> Perfect()
      ensures Kept(old(Mem()), Mem(), old(graph.nChannels), 0, false)
      ensures t' > 0 ==> Tried({Free}, old(Outset()))
      decreases 0, Max(t, 0), 3, 0
    {
      hide ValidTopo, NonNeg, Fresh, RowsDone, RowOk, Kept, Below, NotWorse, Been, Accounted, DoneOk, Affordable;
      hide ToGpu, OnGpu, PastGpu, Arrived, Chosen, Beaten, AllBeaten, Lacks, Ranks, RanksTo, Total, Wanted, Sound;
      hide Valid;
      hide SetsOut, IsNearest, GpuRotation, FirstParts, Truncated;
      SoundAccounts();
      t' := t;
      var c := graph.nChannels;
      var maxBw, minHops := FindNearest(n);
      KeptRefl(Mem(), c, 0, false);
      Unchanged(graph.pattern, best);
      SetsOutStarts(topo, WishOf(graph), Mem(), c, cur, starts, n);
      ghost var p := Outset();
      ghost var order, parts := GpuRotation(|topo.gpus|, c), FirstParts(topo, p, GpuRotation(|topo.gpus|, c));
      NoneBeaten(topo, stock, AimOf(graph), best, {Free}, parts);
      if maxBw >= bw as real {
        for i := 0 to |topo.gpus|
          invariant Sound() && Snap() == old(Snap()) && NotWorse(graph.pattern, old(best), best) && t' <= t
          invariant t' < 0 <= t ==> Perfect()
          invariant Kept(old(Mem()), Mem(), c, 0, false)
          invariant t' > 0 ==> AllBeaten(topo, stock, AimOf(graph), best, {Free}, parts[..i])
        {
          ghost var now, kept := Mem(), best;
          SoundAccounts();
          var g := (c + i) % |topo.gpus|;
          FirstPart(topo, p, c, i);
          var path := topo.path(AtNet(n), AtGpu(g));
          if path.bw == maxBw && |path.links| == minHops {
            SetsOutKept(topo, WishOf(graph), old(Mem()), now, c, cur, starts, AtNet(n));
            t' := StartAt(AtNet(n), g, Free, t');
            BeatenKept(topo, stock, AimOf(graph), best, {Free}, p.(ranks := [topo.gpus[g]]), now, 0);
            KeptTrans(old(Mem()), now, Mem(), c, 0, false);
            NotWorseThrough(graph.pattern, old(best), kept, best);
          } else {
            Unchanged(graph.pattern, best);
            FarBeaten(topo, stock, AimOf(graph), best, parts[i], n, g);
          }
          if t' > 0 { AllBeatenNext(topo, stock, AimOf(graph), kept, best, {Free}, parts, i); }
        }
      } else {
        forall i | 0 <= i < |parts| ensures Beaten(topo, stock, AimOf(graph), best, {Free}, parts[i]) {
          FirstPart(topo, p, c, i);
          FarBeaten(topo, stock, AimOf(graph), best, parts[i], n, order[i]);
        }
        EachBeaten(topo, stock, AimOf(graph), best, {Free}, parts);
      }
      if t' > 0 { FirstTried(topo, stock, AimOf(graph), best, p, c); }
    }

    /** The bandwidth and the number of links of the nearest GPUs. */
    method FindNearest(n: nat) returns (maxBw: real, minHops: nat)
      requires n < |topo.nets| && |topo.gpus| >= 1
      ensures forall g: nat :: g < |topo.gpus| ==>
        var path := topo.path(AtNet(n), AtGpu(g));
        (path.bw == maxBw && |path.links| == minHops <==> IsNearest(topo, n, g)) && path.bw <= maxBw
    {
      maxBw, minHops := 0.0, FAR;
      for g := 0 to |topo.gpus|
        invariant maxBw >= 0.0 && (maxBw == 0.0 ==> minHops <= FAR)
        invariant forall h: nat :: h < g ==>
          var path := topo.path(AtNet(n), AtGpu(h)); path.bw <= maxBw && (path.bw == maxBw ==> minHops <= |path.links|)
        invariant (maxBw == 0.0 && minHops == FAR) || exists h: nat :: h < g && topo.path(AtNet(n), AtGpu(h)).bw == maxBw && |topo.path(AtNet(n), AtGpu(h)).links| == minHops
      {
        var path := topo.path(AtNet(n), AtGpu(g));
        if path.bw > maxBw {
          maxBw, minHops := path.bw, |path.links|;
        } else if path.bw == maxBw && |path.links| < minHops {
          minHops := |path.links|;
        }
      }
    }

    /** The way back to a NIC: every one that the rules allow is tried. */
    method BackToNic(gpu: nat, step: nat, backToFirst: int, order: Order, t: int) returns (t': int)
      requires Sound() && graph.nChannels < graph.maxChannels && Fresh(used, graph.nChannels + 1) && backToFirst == BackToFirst(topo, graph.pattern)
      requires OnGpu(topo, WishOf(graph), Mem(), used, graph.nChannels, cur, starts, step, step, order, gpu)
      modifies this
      ensures Sound() && Snap() == old(Snap()) && NotWorse(graph.pattern, old(best), best) && t' <= t
      ensures t' < 0 <= t ==> Perfect()
      ensures Kept(old(Mem()), Mem(), old(graph.nChannels), step, Been(topo, graph.pattern, step))
      ensures t' > 0 ==> Tried({order}, old(At(step, gpu, step)))
      decreases 0, Max(t, 0), 2
    {
      hide ValidTopo, NonNeg, Fresh, RowsDone, RowOk, Kept, Below, NotWorse, Been, Accounted, DoneOk, Affordable;
      hide ToGpu, OnGpu, PastGpu, Arrived, Chosen, Beaten, AllBeaten, Lacks, Ranks, RanksTo, Total, Wanted, Sound;
      hide Valid;
      SoundAccounts();
      t' := t;
      var c := graph.nChannels;
      ghost var q, back := WishOf(graph), Been(topo, graph.pattern, step);
      OnGpuFacts(topo, q, Mem(), used, c, cur, starts, step, step, order, gpu);
      var start := FindNet(graph.inter[c].0);
      var nets := topo.gpuNets[gpu] by { NetsOfGpu(topo, gpu); }
      KeptRefl(Mem(), c, step, back);
      Unchanged(graph.pattern, best);
      ghost var p := At(step, gpu, step);
      NoNicTried(topo, stock, AimOf(graph), best, {order}, p, gpu, nets);
      for i := 0 to |nets|
        invariant Sound() && Snap() == old(Snap()) && NotWorse(graph.pattern, old(best), best) && t' <= t
        invariant t' < 0 <= t ==> Perfect()
        invariant Kept(old(Mem()), Mem(), c, step, back)
        invariant t' > 0 ==> NicsTried(topo, stock, AimOf(graph), best, {order}, p, gpu, nets, i)
      {
        ghost var before, kept := Mem(), best;
        SoundAccounts();
        OnGpuKept(topo, q, old(Mem()), before, used, c, cur, starts, step, step, order, gpu);
        NetsOfGpu(topo, gpu);
        NicSame(old(Mem()), before, c, step, back);
        if !SkipsNic(topo, graph, step, nets[i], start) {
          NotSkipped(topo, graph, step, nets[i], start);
          t' := TryNic(gpu, step, nets[i], backToFirst, order, t');
          RanksKept(topo, old(Mem()), before, c, step, back, gpu);
          ReturnedKept(topo, stock, AimOf(graph), best, {order}, p, before, step, gpu, nets[i]);
          KeptTrans(old(Mem()), before, Mem(), c, step, back);
          NotWorseThrough(graph.pattern, old(best), kept, best);
        } else {
          Unchanged(graph.pattern, best);
          SkippedNic(topo, graph, p, step, nets[i], start);
        }
        if t' > 0 { NicsTriedNext(topo, stock, AimOf(graph), kept, best, {order}, p, gpu, nets, i); }
      }
      if t' > 0 { AllNicsTried(topo, stock, AimOf(graph), best, p, used, step, order, gpu); }
    }

    /** One NIC of that loop: follow the path there, go on from the same GPU, and come back. */
    method TryNic(gpu: nat, step: nat, n: nat, backToFirst: int, order: Order, t: int) returns (t': int)
      requires Sound() && graph.nChannels < graph.maxChannels && Fresh(used, graph.nChannels + 1) && backToFirst == BackToFirst(topo, graph.pattern)
      requires OnGpu(topo, WishOf(graph), Mem(), used, graph.nChannels, cur, starts, step, step, order, gpu)
      requires ListedNic(topo, Hop(AtGpu(gpu), AtNet(n), 1)) && ReturnRule(topo, WishOf(graph), Mem(), graph.nChannels, n) &&
        (Been(topo, graph.pattern, step) ==> graph.inter[graph.nChannels].1 == topo.nets[n].id)
      modifies this
      ensures Sound() && Snap() == old(Snap()) && NotWorse(graph.pattern, old(best), best) && t' <= t
      ensures t' < 0 <= t ==> Perfect()
      ensures Kept(old(Mem()), Mem(), old(graph.nChannels), step, Been(topo, graph.pattern, step))
      ensures t' > 0 ==> graph.nChannels < |graph.inter| && n < |topo.nets| && Tried({order}, Returned(topo, old(At(step, gpu, step)), gpu, n))
      decreases 0, Max(t, 0), 1
    {
      hide ValidTopo, NonNeg, Fresh, RowsDone, RowOk, Kept, Below, NotWorse, Been, Accounted, DoneOk, Affordable;
      hide ToGpu, OnGpu, PastGpu, Arrived, Chosen, Beaten, AllBeaten, Lacks, Ranks, RanksTo, Total, Wanted;
      hide ReturnRule, Sound, Valid;
      SoundAccounts();
      t' := t;
      var c := graph.nChannels;
      ghost var q, back, before := WishOf(graph), Been(topo, graph.pattern, step), cur;
      OnGpuFacts(topo, q, Mem(), used, c, cur, starts, step, step, order, gpu);
      KeptRefl(Mem(), c, step, back);
      Unchanged(graph.pattern, best);
      var nextBackToNet := if graph.pattern.BalancedTree? && step == 0 then 1 else -1;
      ghost var p := At(step, gpu, step);
      var ok := TakeNic(gpu, n, step, order);
      if !ok {
        ReturnedBeaten(topo, stock, AimOf(graph), best, {order}, p, gpu, n);
      } else {
        ghost var taken := Mem();
        RanksKept(topo, old(Mem()), taken, c, step, back, gpu);
        t' := RecGpu(gpu, step, nextBackToNet, backToFirst, order, t');
        KeptLess(taken, Mem(), c, step, true, step, back);
        KeptTrans(old(Mem()), taken, Mem(), c, step, back);
        GiveNic(gpu, n, before);
        SoundAccounts();
        AccountedSame(topo, stock, q, old(linkBw), old(graph.nHops), old(netBw), linkBw, graph.nHops, netBw, done, cur, starts);
      }
    }

    /** Take the way back to a NIC, if there is bandwidth, and record the NIC. */
    method TakeNic(gpu: nat, n: nat, step: nat, ghost order: Order) returns (ok: bool)
      requires Sound() && graph.nChannels < graph.maxChannels
      requires OnGpu(topo, WishOf(graph), Mem(), used, graph.nChannels, cur, starts, step, step, order, gpu)
      requires ListedNic(topo, Hop(AtGpu(gpu), AtNet(n), 1)) && ReturnRule(topo, WishOf(graph), Mem(), graph.nChannels, n) &&
        (Been(topo, graph.pattern, step) ==> graph.inter[graph.nChannels].1 == topo.nets[n].id)
      modifies this`linkBw, this`graph, this`cur
      ensures Sound() && graph == old(graph).(nHops := graph.nHops, inter := graph.inter) && n < |topo.nets|
      ensures ok ==>
        var next := if graph.pattern.BalancedTree? && step == 0 then 1 else -1;
        && cur == old(cur) + [Hop(AtGpu(gpu), AtNet(n), 1)] && Kept(old(Mem()), Mem(), graph.nChannels, step, Been(topo, graph.pattern, step))
        && OnGpu(topo, WishOf(graph), Mem(), used, graph.nChannels, cur, starts, step, next, order, gpu) && Been(topo, graph.pattern, next)
      ensures !ok ==> cur == old(cur) && linkBw == old(linkBw) && graph == old(graph)
      ensures !ok ==> Lacks(topo, stock, WishOf(graph), done, cur, Hop(AtGpu(gpu), AtNet(n), 1))
      ensures ok ==> graph.inter == old(graph.inter)[graph.nChannels := (old(graph.inter)[graph.nChannels].0, topo.nets[n].id)]
    {
      hide ValidTopo, NonNeg, Charged, Times, RowsDone, RowOk, Kept, Below, Been, Accounted, DoneOk, Affordable, OnGpu;
      hide Near, HopCost, Halved, Lacks;
      SoundIsValid();
      var c := graph.nChannels;
      ghost var q, back, h := WishOf(graph), Been(topo, graph.pattern, step), Hop(AtGpu(gpu), AtNet(n), 1);
      OnGpuFacts(topo, q, Mem(), used, c, cur, starts, step, step, order, gpu);
      PathIsOk(topo, AtGpu(gpu), AtNet(n));
      ok := FollowToNic(gpu, n, 1);
      NicHopCost(old(graph), gpu, n);
      if !ok { HopLacks(topo, stock, q, linkBw, graph.nHops, netBw, done, cur, starts, h); }
      if ok {
        HopAccounted(topo, stock, q, old(linkBw), old(graph.nHops), netBw, done, cur, starts, h);
        SameHalf(old(graph), graph);
        GpuReturned(topo, q, Mem(), used, c, cur, starts, step, order, gpu, n);
        NicIsKept(Mem(), c, step, back, topo.nets[n].id);
        graph := graph.(inter := graph.inter[c := (graph.inter[c].0, topo.nets[n].id)]);
        cur := cur + [h];
        KeptIsBelow(old(Mem()), Mem(), c, step, back);
        DoneKept(topo, q, old(Mem()), Mem(), done, starts, starts);
      }
    }

    /** Give back the last hop, which led to a NIC. */
    method GiveNic(gpu: nat, n: nat, ghost before: seq<Hop>)
      requires Sound() && gpu < |topo.gpus| && n < |topo.nets| && cur == before + [Hop(AtGpu(gpu), AtNet(n), 1)]
      modifies this`linkBw, this`graph, this`cur
      ensures Sound() && graph == old(graph).(nHops := graph.nHops) && cur == before
    {
      hide ValidTopo, NonNeg, Charged, Times, RowsDone, RowOk, Accounted, DoneOk, Affordable, HopCost, Halved;
      PathIsOk(topo, AtGpu(gpu), AtNet(n));
      ghost var q := WishOf(graph);
      var ok := FollowToNic(gpu, n, -1);
      NicHopCost(old(graph), gpu, n);
      HopGiven(topo, stock, q, old(linkBw), old(graph.nHops), netBw, done, before, starts, Hop(AtGpu(gpu), AtNet(n), 1), Halved(old(graph)));
      cur := before;
    }

    /** Take or give back the path to a NIC, at half the bandwidth for a balanced tree. */
    method FollowToNic(gpu: nat, n: nat, mult: int) returns (ok: bool)
      requires Valid() && gpu < |topo.gpus| && n < |topo.nets|
      modifies this`linkBw, this`graph
      ensures Valid()
      ensures var p := topo.path(AtGpu(gpu), AtNet(n));
        if ok then
          && linkBw == Charged(topo, old(linkBw), AtGpu(gpu), p, |p.links|, Times(Halved(old(graph)), mult))
          && graph == old(graph).(nHops := old(graph.nHops) + mult * |p.links|)
        else linkBw == old(linkBw) && graph == old(graph)
      ensures mult <= 0 ==> ok
      ensures mult == 1 ==> PathOk(topo, topo.path(AtGpu(gpu), AtNet(n))) && (ok <==>
        Near(topo, WishOf(old(graph)), Hop(AtGpu(gpu), AtNet(n), 1)) &&
        NonNeg(Charged(topo, old(linkBw), AtGpu(gpu), topo.path(AtGpu(gpu), AtNet(n)), |topo.path(AtGpu(gpu), AtNet(n)).links|, Times(Halved(old(graph)), 1))))
    {
      PathIsOk(topo, AtGpu(gpu), AtNet(n));
      hide ValidTopo, NonNeg, Charged, Times;
      var bwInterSave := graph.bwInter;
      if graph.pattern.BalancedTree? { graph := graph.(bwInter := graph.bwInter / 2.0); }
      ok := FollowPath(AtGpu(gpu), AtNet(n), mult);
      graph := graph.(bwInter := bwInterSave);
    }

    /** The first NIC with a given id. */
    method FindNet(id: int) returns (n: nat)
      requires IsNet(topo, id)
      ensures IsFirst(topo, n, id)
    {
      n := 0;
      while n < |topo.nets| && topo.nets[n].id != id
        invariant n <= |topo.nets| && forall k :: 0 <= k < n ==> topo.nets[k].id != id
      {
        n := n + 1;
      }
    }

    /** ncclTopoSearchTryNvls: connect all GPUs to the NVSwitch, in both directions, and complete the channel. */
    method TryNvls(gpu: nat, ghost backToNet: int, ghost order: Order, t: int) returns (t': int)
      requires Sound() && graph.pattern.Nvls? && graph.nChannels < graph.maxChannels && Fresh(used, graph.nChannels + 1)
      requires PastGpu(topo, WishOf(graph), Mem(), used, graph.nChannels, cur, starts, 0, backToNet, order, gpu)
      modifies this
      ensures Sound() && Snap() == old(Snap()) && NotWorse(graph.pattern, old(best), best) && t' <= t
      ensures t' < 0 <= t ==> Perfect()
      ensures Kept(old(Mem()), Mem(), old(graph.nChannels), |topo.gpus|, true)
      decreases 0, Max(t, 0), 1
    {
      hide ValidTopo, NonNeg, Fresh, RowsDone, RowOk, Kept, Below, NotWorse, Been, Accounted, DoneOk, Affordable;
      hide ToGpu, OnGpu, PastGpu, Arrived, Chosen, Beaten, AllBeaten, Lacks, Ranks, RanksTo, Total, Wanted;
      hide After, Length, SwitchHops, AllNear;
      SoundIsValid();
      t' := t;
      ghost var q, n := WishOf(graph), |topo.gpus|;
      KeptRefl(Mem(), graph.nChannels, n, true);
      Unchanged(graph.pattern, best);
      PastGpuFacts(topo, q, Mem(), used, graph.nChannels, cur, starts, 0, backToNet, order, gpu);
      var d0, ok := Spread(true, gpu);
      if ok {
        ghost var avail, before := linkBw, graph;
        var d1;
        d1, ok := Spread(false, gpu);
        if ok {
          HopsAccounted(topo, stock, q, old(linkBw), old(graph.nHops), netBw, done, cur, starts, SwitchHops(true, gpu, n));
          HopsAccounted(topo, stock, q, avail, before.nHops, netBw, done, cur + SwitchHops(true, gpu, n), starts, SwitchHops(false, gpu, n));
          GpuSwitched(topo, q, Mem(), used, graph.nChannels, cur, starts, backToNet, order, gpu);
          cur := cur + SwitchHops(true, gpu, n) + SwitchHops(false, gpu, n);
          t' := RecGpu(0, |topo.gpus|, -1, -1, Free, t');
          cur := old(cur);
          BelowIsKept(old(Mem()), Mem(), graph.nChannels, n, true);
        }
        Gather(false, gpu, d1, avail);
      }
      Gather(true, gpu, d0, old(linkBw));
    }

    /** Take the paths between the NVSwitch and the GPUs one after the other, as many as have bandwidth. */
    method Spread(down: bool, gpu: nat) returns (d: nat, ok: bool)
      requires Valid() && gpu < |topo.gpus|
      modifies this`linkBw, this`graph
      ensures Valid() && d <= |topo.gpus| && (ok <==> d == |topo.gpus|)
      ensures linkBw == After(topo, WishOf(old(graph)), old(linkBw), SwitchHops(down, gpu, d)) && AllNear(topo, WishOf(old(graph)), SwitchHops(down, gpu, d))
      ensures graph == old(graph).(nHops := old(graph.nHops) + Length(topo, SwitchHops(down, gpu, d)))
    {
      hide ValidTopo, NonNeg, After, Length, SwitchHops, GraphOk, AllNear;
      assert |topo.gpus| >= 1;
      d := 0;
      SwitchStart(topo, WishOf(graph), linkBw, down, gpu);
      while d < |topo.gpus|
        invariant Valid() && d <= |topo.gpus|
        invariant linkBw == After(topo, WishOf(old(graph)), old(linkBw), SwitchHops(down, gpu, d)) && AllNear(topo, WishOf(old(graph)), SwitchHops(down, gpu, d))
        invariant graph == old(graph).(nHops := old(graph.nHops) + Length(topo, SwitchHops(down, gpu, d)))
      {
        ok := Connect(down, gpu, d, old(linkBw));
        if !ok { return; }
        d := d + 1;
      }
      ok := true;
    }

    /** One of these paths. */
    method Connect(down: bool, gpu: nat, d: nat, ghost avail: seq<real>) returns (ok: bool)
      requires Valid() && gpu < |topo.gpus| && d < |topo.gpus| && AllNear(topo, WishOf(graph), SwitchHops(down, gpu, d))
      requires |avail| == |linkBw| && linkBw == After(topo, WishOf(graph), avail, SwitchHops(down, gpu, d))
      modifies this`linkBw, this`graph
      ensures Valid() && (!ok ==> linkBw == old(linkBw) && graph == old(graph))
      ensures ok ==>
        && linkBw == After(topo, WishOf(graph), avail, SwitchHops(down, gpu, d + 1)) && AllNear(topo, WishOf(graph), SwitchHops(down, gpu, d + 1))
        && graph == old(graph).(nHops := old(graph.nHops) - Length(topo, SwitchHops(down, gpu, d)) + Length(topo, SwitchHops(down, gpu, d + 1)))
    {
      hide ValidTopo, NonNeg, Charged, Times, After, Length, SwitchHops, FromEnd, ToEnd, Share, Cost, GraphOk, AllNear, Near;
      BetweenEnds(topo, graph, down, gpu, d);
      SwitchNext(topo, graph, avail, down, gpu, d);
      ok := FollowPath(FromEnd(down, d), ToEnd(down, d), Share(gpu, d));
      if ok { SwitchNear(topo, WishOf(graph), down, gpu, d); }
    }

    /** Give them back, last one first. */
    method Gather(down: bool, gpu: nat, count: nat, ghost avail: seq<real>)
      requires Valid() && gpu < |topo.gpus| && count <= |topo.gpus|
      requires |avail| == |linkBw| && linkBw == After(topo, WishOf(graph), avail, SwitchHops(down, gpu, count))
      modifies this`linkBw, this`graph
      ensures Valid() && linkBw == avail
      ensures graph == old(graph).(nHops := old(graph.nHops) - Length(topo, SwitchHops(down, gpu, count)))
    {
      hide ValidTopo, NonNeg, Charged, Times, After, Length, SwitchHops, FromEnd, ToEnd, Share, Cost, GraphOk;
      var d: nat := count;
      while d > 0
        invariant Valid() && d <= count && linkBw == After(topo, WishOf(graph), avail, SwitchHops(down, gpu, d))
        invariant graph == old(graph).(nHops := old(graph.nHops) - Length(topo, SwitchHops(down, gpu, count)) + Length(topo, SwitchHops(down, gpu, d)))
      {
        d := d - 1;
        BetweenEnds(topo, graph, down, gpu, d);
        SwitchNext(topo, graph, avail, down, gpu, d);
        PathIsOk(topo, FromEnd(down, d), ToEnd(down, d));
        UndoneBy(topo, After(topo, WishOf(graph), avail, SwitchHops(down, gpu, d)), FromEnd(down, d),
                 topo.path(FromEnd(down, d), ToEnd(down, d)), graph.bwIntra, Share(gpu, d));
        var ok := FollowPath(FromEnd(down, d), ToEnd(down, d), -(Share(gpu, d) as int));
      }
      SwitchStart(topo, WishOf(graph), avail, down, gpu);
    }

    /** The GPUs to try next: in index order, as in the previous channel, or any that can follow. */
    method Offer(gpu: nat, step: nat, order: Order, ghost backToNet: int) returns (next: seq<nat>)
      requires Sound() && graph.nChannels < graph.maxChannels && step + 1 < |topo.gpus| && !graph.pattern.Nvls?
      requires PastGpu(topo, WishOf(graph), Mem(), used, graph.nChannels, cur, starts, step, backToNet, order, gpu)
      ensures forall k :: 0 <= k < |next| ==> next[k] < |topo.gpus|
      ensures forall k :: 0 <= k < |next| ==>
        ToGpu(topo, WishOf(graph), Mem(), used, graph.nChannels, cur, starts, step + 1, backToNet, order, AtGpu(gpu), next[k])
      ensures forall g: nat :: g < |topo.gpus| && Comes(topo, graph.pattern, Mem(), used, graph.nChannels, step + 1, order, gpu, g) ==> g in next
    {
      hide ValidTopo, NonNeg, Prefix, RowsDone, RowOk, Follows, InRow, Accounted, DoneOk, Affordable, Leads;
      SoundIsValid();
      PastGpuFacts(topo, WishOf(graph), Mem(), used, graph.nChannels, cur, starts, step, backToNet, order, gpu);
      var c := graph.nChannels;
      match order {
        case Pci =>
          next := [step + 1];
          FollowPci(topo, graph.intra, c, gpu, step);
        case Replay =>
          PreviousRow(topo, graph.intra, used, c, gpu, step);
          var g := FindGpu(graph.intra[c - 1][step + 1]);
          next := [g];
          FollowReplay(topo, graph.intra, c, gpu, g, step);
          forall h: nat | h < |topo.gpus| && topo.gpus[h] == graph.intra[c - 1][step + 1] ensures h == g { SameGpu(topo, h, g); }
        case Free =>
          next := NextGpuSort(gpu);
          forall k | 0 <= k < |next|
            ensures next[k] < |topo.gpus| && ToGpu(topo, WishOf(graph), Mem(), used, graph.nChannels, cur, starts, step + 1, backToNet, order, AtGpu(gpu), next[k])
          {
            assert next[k] in next;
            UnusedNotInRow(topo, graph.intra, used, c, step + 1, next[k]);
            FreeNext(topo, WishOf(graph), Mem(), c, starts, gpu, next[k], step);
          }
      }
    }

    /** Go on to one of the GPUs on offer. */
    method NextGpus(gpu: nat, step: nat, backToNet: int, backToFirst: int, order: Order, t: int) returns (t': int)
      requires Sound() && graph.nChannels < graph.maxChannels && Fresh(used, graph.nChannels + 1) && step + 1 < |topo.gpus|
      requires !graph.pattern.Nvls? && backToFirst == BackToFirst(topo, graph.pattern)
      requires PastGpu(topo, WishOf(graph), Mem(), used, graph.nChannels, cur, starts, step, backToNet, order, gpu)
      modifies this
      ensures Sound() && Snap() == old(Snap()) && NotWorse(graph.pattern, old(best), best) && t' <= t
      ensures t' < 0 <= t ==> Perfect()
      ensures Kept(old(Mem()), Mem(), old(graph.nChannels), step + 1, Been(topo, graph.pattern, backToNet))
      ensures t' > 0 ==> Tried({order}, old(Past(step + 1, backToNet)))
      decreases 0, Max(t, 0), 2
    {
      hide ValidTopo, NonNeg, Fresh, RowsDone, RowOk, Kept, Below, NotWorse, Been, Accounted, DoneOk, Affordable;
      hide ToGpu, OnGpu, PastGpu, Arrived, Chosen, Beaten, AllBeaten, Lacks, Ranks, RanksTo, Total, Wanted, Sound;
      hide Valid;
      SoundAccounts();
      t' := t;
      var c := graph.nChannels;
      ghost var q, back := WishOf(graph), Been(topo, graph.pattern, backToNet);
      var next := Offer(gpu, step, order, backToNet);
      ghost var p := Past(step + 1, backToNet);
      ghost var parts := NextParts(topo, p, next);
      PastRanks(topo, q, Mem(), used, c, cur, starts, step, backToNet, order, gpu);
      NoneBeaten(topo, stock, AimOf(graph), best, {order}, parts);
      KeptRefl(Mem(), c, step + 1, back);
      Unchanged(graph.pattern, best);
      for i := 0 to |next|
        invariant Sound() && Snap() == old(Snap()) && NotWorse(graph.pattern, old(best), best) && t' <= t
        invariant t' < 0 <= t ==> Perfect()
        invariant Kept(old(Mem()), Mem(), c, step + 1, back)
        invariant t' > 0 ==> AllBeaten(topo, stock, AimOf(graph), best, {order}, parts[..i])
      {
        ghost var before, kept := Mem(), best;
        SoundAccounts();
        ToGpuKept(topo, q, old(Mem()), before, used, c, cur, starts, step + 1, backToNet, order, AtGpu(gpu), next[i]);
        t' := TryGpu(step + 1, backToNet, backToFirst, order, t', AtGpu(gpu), next[i]);
        RanksKept(topo, old(Mem()), before, c, step + 1, back, next[i]);
        BeatenKept(topo, stock, AimOf(graph), best, {order}, old(At(step + 1, next[i], backToNet)), before, step + 1);
        if t' > 0 {
          NextPart(topo, p, next, i);
          NextRanks(topo, old(Mem()), c, step + 1, next[i]);
          AllBeatenNext(topo, stock, AimOf(graph), kept, best, {order}, parts, i);
        }
        KeptTrans(old(Mem()), before, Mem(), c, step + 1, back);
        NotWorseThrough(graph.pattern, old(best), kept, best);
      }
      if t' > 0 { NextTried(topo, stock, AimOf(graph), best, p, used, step, backToNet, order, gpu, next); }
    }

    /** The GPU with a given rank. */
    method FindGpu(rank: int) returns (g: nat)
      requires rank in topo.gpus
      ensures g < |topo.gpus| && topo.gpus[g] == rank
    {
      g := 0;
      while topo.gpus[g] != rank
        invariant g < |topo.gpus| && rank in topo.gpus[g..]
        decreases |topo.gpus| - g
      {
        assert topo.gpus[g..] == [topo.gpus[g]] + topo.gpus[g + 1..];
        g := g + 1;
      }
    }

    /** ncclTopoSearchNextGpuSort: the GPUs that can come next, in some order; with NVSwitches only the neighbours. */
    method NextGpuSort(gpu: nat) returns (next: seq<nat>)
      requires ValidTopo(topo) && |used| == |topo.gpus| && gpu < |topo.gpus|
      ensures forall g: nat :: g in next <==> CanFollow(topo, used, graph.nChannels, gpu, g) && (topo.nvs != 0 ==> Neighbour(topo, graph.pattern, gpu, g))
    {
      hide ValidTopo;
      var n, c := |topo.gpus|, graph.nChannels;
      var found: seq<nat> := [];
      for i := 1 to n
        invariant forall g: nat :: g in found <==> CanFollow(topo, used, c, gpu, g) && 1 <= Distance(n, gpu, g) < i
      {
        DistanceAt(n, gpu, i);
        var g := (gpu + i) % n;
        if topo.path(AtGpu(gpu), AtGpu(g)).links != [] && c !in used[g] {
          found := found + [g];
        }
      }
      hide Distance;
      forall g: nat | CanFollow(topo, used, c, gpu, g) ensures 1 <= Distance(n, gpu, g) < n { DistanceRange(n, gpu, g); }
      next := Sorted(found);
      if topo.nvs != 0 { next := NeighboursOnly(gpu, next); }
    }

    /** With NVSwitches: the neighbours that are on offer are moved to the front, and the others dropped. */
    method NeighboursOnly(gpu: nat, all: seq<nat>) returns (next: seq<nat>)
      requires gpu < |topo.gpus|
      ensures forall g: nat :: g in next <==> g in all && Neighbour(topo, graph.pattern, gpu, g)
    {
      var n := |topo.gpus|;
      var prevGpu: nat, nextGpu: nat := (gpu - 1 + n) % n, (gpu + 1) % n;
      var first: seq<nat>;
      if graph.pattern.Ring? {
        first := [nextGpu, prevGpu];
      } else if graph.pattern.SplitTree? || graph.pattern.BalancedTree? {
        first := [prevGpu, nextGpu];
      } else {
        first := [nextGpu];
      }
      if nextGpu == prevGpu && |first| == 2 {
        assert first[..1] == [nextGpu];
        first := first[..1];
      }
      assert forall g: nat :: g in first <==> Neighbour(topo, graph.pattern, gpu, g);
      assert forall i, j :: 0 <= i < j < |first| ==> first[i] != first[j];
      next := all;
      var count: nat := 0;
      for j := 0 to |first|
        invariant count <= |next| && forall g: nat :: g in next <==> g in all
        invariant forall g: nat :: g in next[..count] <==> g in all && g in first[..j]
      {
        var i := 0;
        while i < |next| && next[i] != first[j]
          invariant i <= |next| && first[j] !in next[..i]
        {
          i := i + 1;
        }
        assert first[..j + 1] == first[..j] + [first[j]];
        assert first[j] !in first[..j];
        if i < |next| {
          next, count := Front(next, i, count);
        } else {
          assert next[..i] == next;
        }
      }
      next := next[..count];
      assert first[..|first|] == first;
    }

    /** Move element `i` to the front. */
    method Front(list: seq<nat>, i: nat, count: nat) returns (moved: seq<nat>, count': nat)
      requires i < |list| && count <= |list| && forall k :: 0 <= k < count ==> list[k] != list[i]
      ensures count' == count + 1 <= |moved| && moved[..count'] == [list[i]] + list[..count]
      ensures forall g: nat :: g in moved <==> g in list
    {
      moved := [list[i]] + list[..i] + list[i + 1..];
      count' := count + 1;
      assert list == list[..i] + [list[i]] + list[i + 1..];
      assert moved[..count'] == [list[i]] + list[..count];
    }

    /** qsort by score: some rearrangement. The scores are heuristics; every order is allowed here. */
    method Sorted(found: seq<nat>) returns (next: seq<nat>)
      ensures multiset(next) == multiset(found) && forall g: nat :: g in next <==> g in found
    {
      next := *;
      if multiset(next) != multiset(found) { next := found; }
      forall g: nat ensures g in next <==> g in found {
        assert g in next <==> g in multiset(next);
        assert g in found <==> g in multiset(found);
      }
    }

    /** The way from the last GPU of a ring back to the first. */
    method LoopBack(gpu: nat, step: nat, backToNet: int, order: Order, t: int) returns (t': int)
      requires Sound() && graph.nChannels < graph.maxChannels && Fresh(used, graph.nChannels + 1) && step + 1 == |topo.gpus|
      requires graph.pattern.Ring? && topo.nets == []
      requires PastGpu(topo, WishOf(graph), Mem(), used, graph.nChannels, cur, starts, step, backToNet, order, gpu)
      modifies this
      ensures Sound() && Snap() == old(Snap()) && NotWorse(graph.pattern, old(best), best) && t' <= t
      ensures t' < 0 <= t ==> Perfect()
      ensures Kept(old(Mem()), Mem(), old(graph.nChannels), |topo.gpus|, true)
      ensures t' > 0 ==> Tried({order}, old(Past(step + 1, backToNet)))
      decreases 0, Max(t, 0), 2
    {
      hide ValidTopo, NonNeg, Fresh, RowsDone, RowOk, Kept, Below, NotWorse, Been, Accounted, DoneOk, Affordable;
      hide ToGpu, OnGpu, PastGpu, Arrived, Chosen, Beaten, AllBeaten, Lacks, Ranks, RanksTo, Total, Wanted, Sound;
      hide Valid;
      hide Near;
      SoundAccounts();
      t' := t;
      var c := graph.nChannels;
      ghost var q, n, before := WishOf(graph), |topo.gpus|, cur;
      RowEnds(topo, q, Mem(), used, c, cur, starts, step, backToNet, order, gpu);
      KeptRefl(Mem(), c, n, true);
      Unchanged(graph.pattern, best);
      var p := FindGpu(graph.intra[c][0]);
      ghost var here := Past(step + 1, backToNet);
      WholeRow(Mem(), c, n);
      var ok := Take(AtGpu(gpu), p);
      if !ok {
        AroundBeaten(topo, stock, AimOf(graph), best, {order}, here, backToNet, gpu, p);
      } else {
        LeadsAround(topo, q, Mem(), c, before, starts, backToNet, gpu, p);
        ghost var around := Whole();
        t' := RecGpu(p, step + 1, backToNet, -1, order, t');
        if t' > 0 {
          BeatenFewer(topo, stock, AimOf(graph), best, {order}, around);
          AroundBeaten(topo, stock, AimOf(graph), best, {order}, here, backToNet, gpu, p);
        }
        BelowIsKept(old(Mem()), Mem(), c, n, true);
        Give(AtGpu(gpu), p, before);
        SoundAccounts();
        AccountedSame(topo, stock, q, old(linkBw), old(graph.nHops), old(netBw), linkBw, graph.nHops, netBw, done, cur, starts);
      }
    }
  }

  /**
   A whole search: what it takes it gives back; what it keeps is the graph it was given or one with enough channels that
   the node can carry. If time is left, no graph on offer that the node can carry is better. If the search has ended itself,
   with time below zero, none has more bandwidth.
   */
  method FindChannels(topo: Topo, linkBw: seq<real>, netBw: seq<real>, graph: Graph, given: Graph, time: int) returns (search: Search, left: int)
    requires ValidTopo(topo) && |linkBw| == |topo.links| && NonNeg(linkBw) && |netBw| == |topo.nets|
    requires GraphOk(topo, graph) && graph.nChannels == 0 < graph.maxChannels && RowsOk(topo, given)
    ensures fresh(search) && search.linkBw == linkBw && search.netBw == netBw && Bare(search.graph) == Bare(graph) && left <= Max(time, -1)
    ensures search.best == given || (Affordable(topo, Stock(linkBw, netBw, graph.nHops), search.best) && search.best.nChannels >= search.best.minChannels)
    ensures NotWorse(graph.pattern, given, search.best)
    ensures left > 0 ==> forall sol: Sol :: Fits(topo, Stock(linkBw, netBw, graph.nHops), AimOf(graph), sol) && sol.g.nChannels >= 1 ==>
      !Better(topo, sol.g, search.best)
    ensures left < 0 <= time && !graph.pattern.Nvls? ==> forall sol: Sol :: Fits(topo, Stock(linkBw, netBw, graph.nHops), AimOf(graph), sol) ==>
      Total(sol.g) <= Total(search.best)
  {
    search := new Search(topo, linkBw, netBw, graph, given);
    hide ValidTopo, NonNeg, Affordable, Fits, Better, Fresh, Beaten, Accounted, DoneOk, Below, NotWorse, RowsDone, Total, Wanted;
    ghost var start := search.Outset();
    left := search.SearchRec(time);
    if left > 0 { NothingBetter(topo, search.stock, graph, search.best, start); }
    if left < 0 <= time && !graph.pattern.Nvls? { NothingFaster(topo, search.stock, graph, search.best); }
  }

  /** Every graph goes on from the outset of a search. */
  lemma NothingBetter(topo: Topo, stock: Stock, g: Graph, best: Graph, p: Part)
    requires Beaten(topo, stock, AimOf(g), best, ANY, p) && p.w == WrittenOf(g) && GraphOk(topo, g) && g.maxChannels >= 1
    requires p.done == [] && p.starts == [] && p.cur == [] && p.ranks == [] && !p.back
    ensures forall sol: Sol :: Fits(topo, stock, AimOf(g), sol) && sol.g.nChannels >= 1 ==> !Better(topo, sol.g, best)
  {
    hide Better, Beaten, Fits, SomeWay;
    forall sol: Sol | Fits(topo, stock, AimOf(g), sol) && sol.g.nChannels >= 1 ensures !Better(topo, sol.g, best) {
      FitsShape(topo, stock, AimOf(g), sol);
      BeatenBy(topo, stock, AimOf(g), best, ANY, p, sol);
    }
  }

  /** With the bandwidth of all channels wanted nothing is faster. */
  lemma NothingFaster(topo: Topo, stock: Stock, g: Graph, best: Graph)
    requires Total(best) >= Wanted(g.maxChannels, g.bwIntra)
    ensures forall sol: Sol :: Fits(topo, stock, AimOf(g), sol) ==> Total(sol.g) <= Total(best)
  {
    hide Fits;
    forall sol: Sol | Fits(topo, stock, AimOf(g), sol) ensures Total(sol.g) <= Total(best) { FitsTotal(topo, stock, AimOf(g), sol); }
  }

  lemma FitsTotal(topo: Topo, stock: Stock, aim: Aim, sol: Sol)
    requires Fits(topo, stock, aim, sol)
    ensures Total(sol.g) <= Wanted(aim.max, aim.q.bwIntra)
  {
    hide ValidTopo, Carries, SomeWay;
    assert sol.g.nChannels as real <= aim.max as real;
  }

  lemma FitsShape(topo: Topo, stock: Stock, aim: Aim, sol: Sol)
    requires Fits(topo, stock, aim, sol) && sol.g.nChannels >= 1
    ensures |sol.chans| == sol.g.nChannels && |sol.g.intra| == |sol.g.inter| == aim.max && SomeWay(topo, sol, 0, ANY)
  {
  }

  /** The hops once GPU `g` is reached from `a`. */
  ghost function Ridden(cur: seq<Hop>, a: End, g: nat): seq<Hop> { if a == Nowhere then cur else cur + [Hop(a, AtGpu(g), 1)] }

  // ---------------------------------------------------------------- stages of the search

  /** The search keeps to the order; if all channels are to be the same, to the previous one. */
  ghost predicate InTurn(topo: Topo, q: Wish, w: Written, c: nat, starts: seq<nat>, g: nat, step: nat, order: Order) {
    && Follows(topo, order, w.rows, c, g, step)
    && match order
       case Replay => true
       case Free => (c == 0 || !q.sameChannels) && FreeRanks(topo, q, c, starts, RanksTo(topo, w, c, step, g))
       case Pci => c == 0 && (topo.nets != [] ==> topo.nvs == 0)
  }

  /** A channel can start with GPU `g`. */
  ghost predicate StartsWith(topo: Topo, q: Wish, w: Written, c: nat, starts: seq<nat>, g: nat, order: Order) {
    && g < |topo.gpus|
    && if q.pattern.Nvls? then HeadOk(topo, c, starts, topo.gpus[g])
       else match order
         case Replay => 1 <= c <= |w.rows| && w.rows[c - 1] != [] && topo.gpus[g] == w.rows[c - 1][0]
         case Free => (c == 0 || !q.sameChannels) && FreeRanks(topo, q, c, starts, [topo.gpus[g]])
         case Pci => g == 0 && c == 0 && (topo.nets != [] ==> topo.nvs == 0)
  }

  /** Nothing of channel `c` is taken yet but the NIC it starts from. */
  ghost predicate SetsOut(topo: Topo, q: Wish, w: Written, c: nat, cur: seq<Hop>, starts: seq<nat>, from: End) {
    Leads(topo, q, w, c, cur, starts, 0, BackToNet(topo, q.pattern)) && ComesFrom(topo, w, c, starts, 0, from)
  }

  /** The channel is about to go from `from` to GPU `g` as its GPU number `step`. */
  ghost predicate ToGpu(topo: Topo, q: Wish, w: Written, used: seq<set<nat>>, c: nat, cur: seq<Hop>, starts: seq<nat>,
                        step: nat, backToNet: int, order: Order, from: End, g: nat) {
    && step < |topo.gpus| && g < |topo.gpus| && |used| == |topo.gpus|
    && Leads(topo, q, w, c, cur, starts, step, backToNet) && ComesFrom(topo, w, c, starts, step, from) && |w.rows[c]| == |topo.gpus|
    && if q.pattern.Nvls? then step == 0 && HeadOk(topo, c, starts, topo.gpus[g])
       else Prefix(topo, w.rows, used, c, step) && !InRow(topo, w.rows, c, step, g) && InTurn(topo, q, w, c, starts, g, step, order)
  }

  /** ... has got there. */
  ghost predicate OnGpu(topo: Topo, q: Wish, w: Written, used: seq<set<nat>>, c: nat, cur: seq<Hop>, starts: seq<nat>,
                        step: nat, backToNet: int, order: Order, gpu: nat) {
    && step < |topo.gpus| && gpu < |topo.gpus| && |used| == |topo.gpus|
    && Stands(topo, q, w, c, cur, starts, step, backToNet, topo.gpus[gpu]) && |w.rows[c]| == |topo.gpus|
    && if q.pattern.Nvls? then step == 0 && HeadOk(topo, c, starts, topo.gpus[gpu])
       else OnPath(topo, w.rows, used, c, gpu, step) && InTurn(topo, q, w, c, starts, gpu, step, order)
  }

  /** ... and goes on, with the GPU in its row. */
  ghost predicate PastGpu(topo: Topo, q: Wish, w: Written, used: seq<set<nat>>, c: nat, cur: seq<Hop>, starts: seq<nat>,
                          step: nat, backToNet: int, order: Order, gpu: nat) {
    && step < |topo.gpus| && gpu < |topo.gpus| && |used| == |topo.gpus|
    && Leads(topo, q, w, c, cur, starts, step + 1, backToNet) && |w.rows[c]| == |topo.gpus| && w.rows[c][step] == topo.gpus[gpu]
    && if q.pattern.Nvls? then step == 0 && HeadOk(topo, c, starts, topo.gpus[gpu])
       else Prefix(topo, w.rows, used, c, step + 1) && InTurn(topo, q, w, c, starts, gpu, step, order)
  }

  lemma ToGpuFacts(topo: Topo, q: Wish, w: Written, used: seq<set<nat>>, c: nat, cur: seq<Hop>, starts: seq<nat>,
                   step: nat, backToNet: int, order: Order, from: End, g: nat)
    requires ToGpu(topo, q, w, used, c, cur, starts, step, backToNet, order, from, g)
    ensures g < |topo.gpus| && step < |topo.gpus| && g < |used| && (from == Nowhere || IsEnd(topo, from))
  {
    FromIsEnd(topo, q, w, c, cur, starts, step, backToNet, from);
  }

  lemma OnGpuFacts(topo: Topo, q: Wish, w: Written, used: seq<set<nat>>, c: nat, cur: seq<Hop>, starts: seq<nat>,
                   step: nat, backToNet: int, order: Order, gpu: nat)
    requires OnGpu(topo, q, w, used, c, cur, starts, step, backToNet, order, gpu)
    ensures gpu < |topo.gpus| && step < |topo.gpus| && c < |w.rows| && c < |w.nics| && (q.pattern.Nvls? ==> step == 0)
    ensures backToNet == step ==> topo.nets != [] && ReturnsAt(topo, q.pattern, step) && IsNet(topo, w.nics[c].0)
  {
    StandsFacts(topo, q, w, c, cur, starts, step, backToNet, topo.gpus[gpu]);
  }

  lemma PastGpuFacts(topo: Topo, q: Wish, w: Written, used: seq<set<nat>>, c: nat, cur: seq<Hop>, starts: seq<nat>,
                     step: nat, backToNet: int, order: Order, gpu: nat)
    requires PastGpu(topo, q, w, used, c, cur, starts, step, backToNet, order, gpu)
    ensures gpu < |topo.gpus| && step < |topo.gpus| && c < |w.rows| && c < |w.nics| && |w.rows[c]| == |topo.gpus| && w.rows[c][step] == topo.gpus[gpu]
    ensures !q.pattern.Nvls? ==> Prefix(topo, w.rows, used, c, step + 1) && InTurn(topo, q, w, c, starts, gpu, step, order) && Follows(topo, order, w.rows, c, gpu, step)
  {
  }

  /** In free order, one GPU further. */
  lemma FreeNext(topo: Topo, q: Wish, w: Written, c: nat, starts: seq<nat>, g: nat, h: nat, step: nat)
    requires ValidTopo(topo) && c < |w.rows| && step < |w.rows[c]| && g < |topo.gpus| && h < |topo.gpus| && w.rows[c][step] == topo.gpus[g]
    requires FreeRanks(topo, q, c, starts, RanksTo(topo, w, c, step, g)) && topo.path(AtGpu(g), AtGpu(h)).links != []
    requires topo.nvs != 0 ==> Neighbour(topo, q.pattern, g, h)
    ensures FreeRanks(topo, q, c, starts, RanksTo(topo, w, c, step + 1, h))
  {
    hide Nearest, Neighbour;
    var ranks := RanksTo(topo, w, c, step, g);
    assert RanksTo(topo, w, c, step + 1, h) == ranks + [topo.gpus[h]];
    assert RankNext(topo, q.pattern, topo.gpus[g], topo.gpus[h]);
  }

  lemma InTurnKept(topo: Topo, q: Wish, a: Written, b: Written, used: seq<set<nat>>, c: nat, starts: seq<nat>, g: nat, step: nat, back: bool, order: Order)
    requires |a.rows| == |a.nics| && Kept(a, b, c, step, back) && InTurn(topo, q, a, c, starts, g, step, order)
    ensures InTurn(topo, q, b, c, starts, g, step, order)
  {
    hide Kept, FreeRanks, Follows;
    RanksKept(topo, a, b, c, step, back, g);
    KeptFacts(topo, a, b, used, c, step, back, g, order);
  }

  lemma SetsOutKept(topo: Topo, q: Wish, a: Written, b: Written, c: nat, cur: seq<Hop>, starts: seq<nat>, from: End)
    requires |topo.gpus| >= 1 && Kept(a, b, c, 0, false) && SetsOut(topo, q, a, c, cur, starts, from)
    ensures SetsOut(topo, q, b, c, cur, starts, from)
  {
    hide Leads, Kept;
    NotBeen(topo, q.pattern);
    LeadsKept(topo, q, a, b, c, 0, cur, starts, BackToNet(topo, q.pattern));
    ComesFromKept(topo, a, b, c, starts, 0, false, from);
  }

  lemma NoNicSetsOut(topo: Topo, q: Wish, w: Written, c: nat, starts: seq<nat>)
    requires |topo.gpus| >= 1 && topo.nets == [] && c < |w.rows| && c < |w.nics| && starts == []
    ensures SetsOut(topo, q, w, c, [], starts, Nowhere)
  {
    hide Leads;
    LeadsOut(topo, q, w, c, starts);
  }

  lemma ToGpuKept(topo: Topo, q: Wish, a: Written, b: Written, used: seq<set<nat>>, c: nat, cur: seq<Hop>, starts: seq<nat>,
                  step: nat, backToNet: int, order: Order, from: End, g: nat)
    requires |a.rows| == |a.nics| && Kept(a, b, c, step, Been(topo, q.pattern, backToNet))
    requires ToGpu(topo, q, a, used, c, cur, starts, step, backToNet, order, from, g)
    ensures ToGpu(topo, q, b, used, c, cur, starts, step, backToNet, order, from, g)
  {
    var back := Been(topo, q.pattern, backToNet);
    SameRows(a, b, c, step, back);
    hide Kept, Leads, ComesFrom, Prefix, InTurn, InRow, Been;
    LeadsKept(topo, q, a, b, c, step, cur, starts, backToNet);
    ComesFromKept(topo, a, b, c, starts, step, back, from);
    if !q.pattern.Nvls? {
      KeptFacts(topo, a, b, used, c, step, back, g, order);
      InTurnKept(topo, q, a, b, used, c, starts, g, step, back, order);
    }
  }

  lemma SameRows(a: Written, b: Written, c: nat, step: nat, back: bool)
    requires Kept(a, b, c, step, back) && c < |a.rows|
    ensures c < |b.rows| && |b.rows[c]| == |a.rows[c]|
  {
  }

  lemma OnGpuKept(topo: Topo, q: Wish, a: Written, b: Written, used: seq<set<nat>>, c: nat, cur: seq<Hop>, starts: seq<nat>,
                  step: nat, backToNet: int, order: Order, gpu: nat)
    requires |a.rows| == |a.nics| && Kept(a, b, c, step, Been(topo, q.pattern, backToNet))
    requires OnGpu(topo, q, a, used, c, cur, starts, step, backToNet, order, gpu)
    ensures OnGpu(topo, q, b, used, c, cur, starts, step, backToNet, order, gpu)
  {
    var back := Been(topo, q.pattern, backToNet);
    StandsFacts(topo, q, a, c, cur, starts, step, backToNet, topo.gpus[gpu]);
    assert c < |a.rows|;
    SameRows(a, b, c, step, back);
    hide Kept, Stands, OnPath, InTurn, Been;
    StandsKept(topo, q, a, b, c, step, cur, starts, backToNet, topo.gpus[gpu]);
    KeptOnPath(topo, a, b, used, c, step, back, gpu);
    if !q.pattern.Nvls? { InTurnKept(topo, q, a, b, used, c, starts, gpu, step, back, order); }
  }

  /** The hop is taken and the GPU marked. */
  lemma GpuReached(topo: Topo, q: Wish, w: Written, used: seq<set<nat>>, c: nat, cur: seq<Hop>, starts: seq<nat>,
                   step: nat, backToNet: int, order: Order, from: End, g: nat)
    requires ToGpu(topo, q, w, used, c, cur, starts, step, backToNet, order, from, g)
    requires Fresh(used, c + 1) && (from != Nowhere ==> Near(topo, q, Hop(from, AtGpu(g), 1)))
    ensures g < |used| && OnGpu(topo, q, w, used[g := Toggle(used[g], c)], c, Ridden(cur, from, g), starts, step, backToNet, order, g)
  {
    assert c < |w.rows|;
    hide Leads, Stands, ComesFrom, Prefix, OnPath, InRow, Follows, Near, Fresh;
    LeadsOn(topo, q, w, c, step, cur, starts, backToNet, from, g);
    Marked(topo, w.rows, used, c, g, step);
  }

  lemma FreshMarked(used: seq<set<nat>>, c: nat, g: nat)
    requires Fresh(used, c + 1) && g < |used|
    ensures Fresh(used[g := Toggle(used[g], c)], c + 1)
  {
  }

  /** The GPU is in its row. */
  lemma GpuPut(topo: Topo, g: Graph, used: seq<set<nat>>, cur: seq<Hop>, starts: seq<nat>, step: nat, backToNet: int, order: Order, gpu: nat)
    requires ValidTopo(topo) && GraphOk(topo, g) && g.nChannels < g.maxChannels
    requires OnGpu(topo, WishOf(g), WrittenOf(g), used, g.nChannels, cur, starts, step, backToNet, order, gpu)
    ensures step < |g.intra[g.nChannels]| && gpu < |topo.gpus|
    ensures var g' := g.(intra := g.intra[g.nChannels := g.intra[g.nChannels][step := topo.gpus[gpu]]]);
      && OnGpu(topo, WishOf(g), WrittenOf(g'), used, g.nChannels, cur, starts, step, backToNet, order, gpu)
      && (backToNet != step ==> PastGpu(topo, WishOf(g), WrittenOf(g'), used, g.nChannels, cur, starts, step, backToNet, order, gpu))
  {
    hide ValidTopo, Stands, Leads, Prefix, OnPath, InTurn, RowsDone, Kept, HeadOk, Follows;
    var q, w, c := WishOf(g), WrittenOf(g), g.nChannels;
    SomeGpu(topo);
    OnGpuFacts(topo, q, w, used, c, cur, starts, step, backToNet, order, gpu);
    PutKeeps(topo, g, used, c, gpu, step, order);
    PutIsKept(w, c, step, true, topo.gpus[gpu]);
    if !q.pattern.Nvls? { InTurnKept(topo, q, w, w.(rows := w.rows[c := w.rows[c][step := topo.gpus[gpu]]]), used, c, starts, gpu, step, true, order); }
    StandsPut(topo, q, w, c, step, cur, starts, backToNet, topo.gpus[gpu]);
  }

  /** The way back to a NIC is taken. */
  lemma GpuReturned(topo: Topo, q: Wish, w: Written, used: seq<set<nat>>, c: nat, cur: seq<Hop>, starts: seq<nat>, step: nat, order: Order, gpu: nat, n: nat)
    requires OnGpu(topo, q, w, used, c, cur, starts, step, step, order, gpu)
    requires Near(topo, q, Hop(AtGpu(gpu), AtNet(n), 1)) && ListedNic(topo, Hop(AtGpu(gpu), AtNet(n), 1)) && ReturnRule(topo, q, w, c, n)
    requires Been(topo, q.pattern, step) ==> c < |w.nics| && w.nics[c].1 == topo.nets[n].id
    ensures n < |topo.nets| && c < |w.nics|
    ensures var w' := w.(nics := w.nics[c := (w.nics[c].0, topo.nets[n].id)]);
      var next := if q.pattern.BalancedTree? && step == 0 then 1 else -1;
      && OnGpu(topo, q, w', used, c, cur + [Hop(AtGpu(gpu), AtNet(n), 1)], starts, step, next, order, gpu)
      && Been(topo, q.pattern, next)
  {
    assert n < |topo.nets| && c < |w.nics| && c < |w.rows|;
    hide Stands, OnPath, Follows, Near, ReturnRule, Been;
    StandsReturned(topo, q, w, c, step, cur, starts, gpu, n);
  }

  /** The NVSwitch is connected. */
  lemma GpuSwitched(topo: Topo, q: Wish, w: Written, used: seq<set<nat>>, c: nat, cur: seq<Hop>, starts: seq<nat>, backToNet: int, order: Order, gpu: nat)
    requires ValidTopo(topo) && q.pattern.Nvls? && PastGpu(topo, q, w, used, c, cur, starts, 0, backToNet, order, gpu)
    requires AllNear(topo, q, SwitchHops(true, gpu, |topo.gpus|)) && AllNear(topo, q, SwitchHops(false, gpu, |topo.gpus|))
    ensures Arrived(topo, q, w, c, cur + SwitchHops(true, gpu, |topo.gpus|) + SwitchHops(false, gpu, |topo.gpus|), starts)
    ensures Chosen(topo, q, w, c, starts)
  {
    assert c < |w.rows|;
    hide ValidTopo, Leads, Arrived, AllNear, SwitchHops;
    LeadsThroughSwitch(topo, q, w, c, cur, starts, backToNet, gpu);
  }

  /** The last GPU is in its row. */
  lemma RowEnds(topo: Topo, q: Wish, w: Written, used: seq<set<nat>>, c: nat, cur: seq<Hop>, starts: seq<nat>, step: nat, backToNet: int, order: Order, gpu: nat)
    requires !q.pattern.Nvls? && step + 1 == |topo.gpus| && RowsDone(topo, w.rows, c)
    requires PastGpu(topo, q, w, used, c, cur, starts, step, backToNet, order, gpu)
    ensures c < |w.rows| && |w.rows[c]| == |topo.gpus| && w.rows[c][0] in topo.gpus && w.rows[c][step] == topo.gpus[gpu] && gpu < |topo.gpus|
    ensures Leads(topo, q, w, c, cur, starts, |topo.gpus|, backToNet) && Chosen(topo, q, w, c, starts)
  {
    hide Leads, InTurn, RowsDone, RowOk, Chosen, Prefix, Follows;
    PastGpuFacts(topo, q, w, used, c, cur, starts, step, backToNet, order, gpu);
    RowIsDone(topo, w.rows, used, c);
    FirstInRow(topo, w.rows[c]);
    RowInOrder(topo, q, w, c, starts, gpu, order);
  }

  // ---------------------------------------------------------------- what has been tried

  /** A GPU has been tried: its hop lacks bandwidth, or what follows is beaten. */
  lemma GpuTried(topo: Topo, stock: Stock, aim: Aim, best: Graph, p: Part, used: seq<set<nat>>, step: nat, backToNet: int, order: Order, from: End, g: nat)
    requires ToGpu(topo, aim.q, p.w, used, |p.done|, p.cur, p.starts, step, backToNet, order, from, g)
    requires p.ranks == RanksTo(topo, p.w, |p.done|, step, g) && p.back == Been(topo, aim.q.pattern, backToNet)
    requires Beaten(topo, stock, aim, best, {order}, p.(cur := Ridden(p.cur, from, g))) || (from != Nowhere && Lacks(topo, stock, aim.q, p.done, p.cur, Hop(from, AtGpu(g), 1)))
    ensures Beaten(topo, stock, aim, best, {order}, p)
  {
    hide Leads, ComesFrom, Beaten, Prefix, InTurn, InRow, Been;
    ToGpuRow(topo, aim.q, p.w, used, |p.done|, p.cur, p.starts, step, backToNet, order, from, g);
    if from != Nowhere {
      GpuBeaten(topo, stock, aim, best, {order}, p, step, backToNet, from, g);
    }
  }

  lemma ToGpuRow(topo: Topo, q: Wish, w: Written, used: seq<set<nat>>, c: nat, cur: seq<Hop>, starts: seq<nat>,
                 step: nat, backToNet: int, order: Order, from: End, g: nat)
    requires ToGpu(topo, q, w, used, c, cur, starts, step, backToNet, order, from, g)
    ensures c < |w.rows| && step < |w.rows[c]| == |topo.gpus| && g < |topo.gpus|
  {
  }

  /** With the GPU in its row, going on from it is going on from the row. */
  lemma PastIsAt(topo: Topo, q: Wish, w: Written, used: seq<set<nat>>, c: nat, cur: seq<Hop>, starts: seq<nat>, step: nat, backToNet: int, order: Order, gpu: nat)
    requires PastGpu(topo, q, w, used, c, cur, starts, step, backToNet, order, gpu)
    ensures Ranks(w, c, step + 1) == RanksTo(topo, w, c, step, gpu)
  {
    PastGpuFacts(topo, q, w, used, c, cur, starts, step, backToNet, order, gpu);
  }

  lemma PastRanks(topo: Topo, q: Wish, w: Written, used: seq<set<nat>>, c: nat, cur: seq<Hop>, starts: seq<nat>, step: nat, backToNet: int, order: Order, gpu: nat)
    requires PastGpu(topo, q, w, used, c, cur, starts, step, backToNet, order, gpu)
    ensures |Ranks(w, c, step + 1)| == step + 1
  {
    PastGpuFacts(topo, q, w, used, c, cur, starts, step, backToNet, order, gpu);
  }

  lemma LeadsBack(topo: Topo, q: Wish, w: Written, c: nat, cur: seq<Hop>, starts: seq<nat>, step: nat, backToNet: int)
    requires Leads(topo, q, w, c, cur, starts, step, backToNet)
    ensures backToNet == NextBack(topo, q.pattern, step)
  {
  }

  lemma WholeRow(w: Written, c: nat, n: nat)
    requires c < |w.rows| && |w.rows[c]| == n
    ensures Ranks(w, c, n) == w.rows[c]
  {
  }

  lemma WholeRanks(topo: Topo, g: Graph)
    requires GraphOk(topo, g) && g.nChannels < g.maxChannels
    ensures Ranks(WrittenOf(g), g.nChannels, |topo.gpus|) == g.intra[g.nChannels]
  {
  }

  lemma FirstRank(topo: Topo, w: Written, c: nat, g: nat)
    requires c < |w.rows| && g < |topo.gpus|
    ensures RanksTo(topo, w, c, 0, g) == [topo.gpus[g]]
  {
  }

  lemma PreviousFirst(topo: Topo, rows: seq<seq<int>>, c: nat)
    requires c >= 1 && RowsDone(topo, rows, c) && |topo.gpus| >= 1
    ensures c - 1 < |rows| && rows[c - 1] != [] && rows[c - 1][0] in topo.gpus
  {
    assert RowOk(topo, rows[c - 1]);
  }

  lemma NetsListed(topo: Topo)
    requires ValidTopo(topo)
    ensures NetsOk(topo, topo.allNets)
  {
  }

  function FirstParts(topo: Topo, p: Part, order: seq<nat>): (parts: seq<Part>)
    ensures |parts| == |order|
  {
    seq(|order|, k requires 0 <= k < |order| => p.(ranks := if order[k] < |topo.gpus| then [topo.gpus[order[k]]] else []))
  }

  lemma FirstPart(topo: Topo, p: Part, c: nat, i: nat)
    requires i < |topo.gpus|
    ensures var order := GpuRotation(|topo.gpus|, c);
      && order[i] == (c + i) % |topo.gpus| < |topo.gpus| && FirstParts(topo, p, order)[i] == p.(ranks := [topo.gpus[order[i]]])
      && (c == 0 ==> order[i] == i)
  {
    DivModFacts(c + i, |topo.gpus|);
    if c == 0 { DivUnique(i, |topo.gpus|, 0, i); }
  }

  lemma FirstTried(topo: Topo, stock: Stock, aim: Aim, best: Graph, p: Part, c: nat)
    requires p.ranks == [] && AllBeaten(topo, stock, aim, best, {Free}, FirstParts(topo, p, GpuRotation(|topo.gpus|, c))[..|topo.gpus|])
    ensures Beaten(topo, stock, aim, best, {Free}, p)
  {
    hide Beaten, GpuRotation;
    var order := GpuRotation(|topo.gpus|, c);
    var parts := FirstParts(topo, p, order);
    assert parts[..|topo.gpus|] == parts;
    forall k | 0 <= k < |parts| ensures order[k] < |topo.gpus| && parts[k] == p.(ranks := [topo.gpus[order[k]]]) { FirstPart(topo, p, c, k); }
    forall g: nat | g < |topo.gpus| ensures g in order { GpuRotationHas(|topo.gpus|, c, g); }
    hide FirstParts, AllBeaten;
    FirstBeaten(topo, stock, aim, best, p, parts, order);
  }

  lemma NoneBeaten(topo: Topo, stock: Stock, aim: Aim, best: Graph, orders: set<Order>, parts: seq<Part>)
    ensures AllBeaten(topo, stock, aim, best, orders, parts[..0])
  {
  }

  lemma EachBeaten(topo: Topo, stock: Stock, aim: Aim, best: Graph, orders: set<Order>, parts: seq<Part>)
    requires forall k :: 0 <= k < |parts| ==> Beaten(topo, stock, aim, best, orders, parts[k])
    ensures AllBeaten(topo, stock, aim, best, orders, parts[..|parts|])
  {
    hide Beaten;
    assert parts[..|parts|] == parts;
  }

  lemma SetsOutStarts(topo: Topo, q: Wish, w: Written, c: nat, cur: seq<Hop>, starts: seq<nat>, n: nat)
    requires SetsOut(topo, q, w, c, cur, starts, AtNet(n))
    ensures topo.nets != [] && c < |starts| && starts[c] == n
  {
    hide Leads;
  }

  function NextParts(topo: Topo, p: Part, next: seq<nat>): (parts: seq<Part>)
    ensures |parts| == |next|
  {
    seq(|next|, k requires 0 <= k < |next| => p.(ranks := p.ranks + if next[k] < |topo.gpus| then [topo.gpus[next[k]]] else []))
  }

  lemma NextPart(topo: Topo, p: Part, next: seq<nat>, i: nat)
    requires i < |next|
    ensures NextParts(topo, p, next)[i] == p.(ranks := p.ranks + if next[i] < |topo.gpus| then [topo.gpus[next[i]]] else [])
  {
  }

  lemma NextRanks(topo: Topo, w: Written, c: nat, step: nat, g: nat)
    ensures RanksTo(topo, w, c, step, g) == Ranks(w, c, step) + if g < |topo.gpus| then [topo.gpus[g]] else []
  {
  }

  lemma NextTried(topo: Topo, stock: Stock, aim: Aim, best: Graph, p: Part, used: seq<set<nat>>, step: nat, backToNet: int, order: Order, gpu: nat, next: seq<nat>)
    requires PastGpu(topo, aim.q, p.w, used, |p.done|, p.cur, p.starts, step, backToNet, order, gpu) && !aim.q.pattern.Nvls? && step + 1 < |topo.gpus|
    requires p.ranks == Ranks(p.w, |p.done|, step + 1) && (forall k :: 0 <= k < |next| ==> next[k] < |topo.gpus|)
    requires forall g: nat :: g < |topo.gpus| && Comes(topo, aim.q.pattern, p.w, used, |p.done|, step + 1, order, gpu, g) ==> g in next
    requires AllBeaten(topo, stock, aim, best, {order}, NextParts(topo, p, next)[..|next|])
    ensures Beaten(topo, stock, aim, best, {order}, p)
  {
    hide PastGpu, Beaten, AllBeaten, Comes, Prefix, Follows;
    PastGpuFacts(topo, aim.q, p.w, used, |p.done|, p.cur, p.starts, step, backToNet, order, gpu);
    var parts := NextParts(topo, p, next);
    assert parts[..|next|] == parts;
    NextBeaten(topo, stock, aim, best, p, used, step, order, gpu, next, parts);
  }

  lemma NoNicTried(topo: Topo, stock: Stock, aim: Aim, best: Graph, orders: set<Order>, p: Part, gpu: nat, nets: seq<nat>)
    requires |p.done| < |p.w.nics|
    ensures NicsTried(topo, stock, aim, best, orders, p, gpu, nets, 0)
  {
  }

  lemma ReturnedKept(topo: Topo, stock: Stock, aim: Aim, best: Graph, orders: set<Order>, p: Part, b: Written, step: nat, gpu: nat, m: nat)
    requires |p.w.rows| == |p.w.nics| && |p.done| < |p.w.nics| && m < |topo.nets| && Kept(p.w, b, |p.done|, step, p.back)
    ensures |p.done| < |b.nics|
    ensures Beaten(topo, stock, aim, best, orders, Returned(topo, p.(w := b), gpu, m)) <==> Beaten(topo, stock, aim, best, orders, Returned(topo, p, gpu, m))
  {
    hide Beaten;
    var here, there := Returned(topo, p, gpu, m), Returned(topo, p.(w := b), gpu, m);
    BeatenKept(topo, stock, aim, best, orders, here, there.w, step);
  }

  lemma AllNicsTried(topo: Topo, stock: Stock, aim: Aim, best: Graph, p: Part, used: seq<set<nat>>, step: nat, order: Order, gpu: nat)
    requires gpu < |topo.gpuNets| && NicsTried(topo, stock, aim, best, {order}, p, gpu, topo.gpuNets[gpu], |topo.gpuNets[gpu]|)
    requires OnGpu(topo, aim.q, p.w, used, |p.done|, p.cur, p.starts, step, step, order, gpu)
    requires p.ranks == RanksTo(topo, p.w, |p.done|, step, gpu) && p.back == Been(topo, aim.q.pattern, step)
    ensures Beaten(topo, stock, aim, best, {order}, p)
  {
    hide Beaten, OnPath, InTurn, Been, AllowedNic, Returned;
    StandsFacts(topo, aim.q, p.w, |p.done|, p.cur, p.starts, step, step, topo.gpus[gpu]);
    hide Stands;
    NicsBeaten(topo, stock, aim, best, {order}, p, step, gpu);
  }

  lemma NoStartTried(topo: Topo, stock: Stock, aim: Aim, best: Graph, p: Part, order: seq<nat>)
    requires |p.done| < |p.w.nics|
    ensures StartsTried(topo, stock, aim, best, p, order, 0)
  {
  }

  /** The NICs a channel is started from are those it may start from. */
  lemma StartIff(topo: Topo, stock: Stock, g: Graph, linkBw: seq<real>, netBw: seq<real>, p: Part, now: Written, n: nat)
    requires ValidTopo(topo) && n in topo.allNets && n < |topo.nets| == |netBw| && Accounted(topo, stock, WishOf(g), linkBw, g.nHops, netBw, p.done, p.cur, p.starts)
    requires now == WrittenOf(g) && |p.done| == g.nChannels < |g.inter| && Below(p.w, now, |p.done|)
    ensures AllowedStart(topo, stock, WishOf(g), p, n) <==>
      !(g.collNet && !topo.nets[n].collSupport) && !(netBw[n] < Truncated(g.bwInter) as real) &&
      !(g.crossNic != 0 && g.nChannels % 2 == 1 && topo.nets[n].id != g.inter[g.nChannels - 1].1)
  {
    hide ValidTopo, After, AfterAll, Length, LengthAll, NicsAfford, NicAfter, Truncated;
  }

  lemma AllStartsTried(topo: Topo, stock: Stock, aim: Aim, best: Graph, p: Part, nets: seq<nat>, c: nat)
    requires nets == topo.allNets && StartsTried(topo, stock, aim, best, p, Rotation(nets, c), |nets|)
    requires topo.nets != [] && |p.starts| == |p.done| < |p.w.nics| && !p.back && p.cur == []
    ensures Beaten(topo, stock, aim, best, ANY, p)
  {
    hide Beaten, AllowedStart, Started, Rotation;
    var order := Rotation(nets, c);
    forall n: nat | n in topo.allNets ensures n in order { RotationHas(nets, c, n); }
    StartsBeaten(topo, stock, aim, best, p, order);
  }

  /** What has been taken decides what is left. */
  lemma AccountedSame(topo: Topo, stock: Stock, q: Wish, linkBw: seq<real>, nHops: int, netBw: seq<real>, linkBw': seq<real>, nHops': int, netBw': seq<real>,
                      done: seq<seq<Hop>>, cur: seq<Hop>, starts: seq<nat>)
    requires ValidTopo(topo) && Accounted(topo, stock, q, linkBw, nHops, netBw, done, cur, starts)
    requires Accounted(topo, stock, q, linkBw', nHops', netBw', done, cur, starts)
    ensures linkBw' == linkBw && nHops' == nHops && netBw' == netBw
  {
    hide ValidTopo, After, AfterAll, Length, LengthAll, NicsAfford, NicAfter;
  }

  lemma ReopenAccounted(topo: Topo, stock: Stock, q: Wish, linkBw: seq<real>, nHops: int, netBw: seq<real>,
                        done: seq<seq<Hop>>, cur: seq<Hop>, starts: seq<nat>)
    requires ValidTopo(topo) && Accounted(topo, stock, q, linkBw, nHops, netBw, done + [cur], [], starts)
    ensures Accounted(topo, stock, q, linkBw, nHops, netBw, done, cur, starts)
  {
    hide ValidTopo, AfterAll, LengthAll, NicsAfford, NicAfter;
    AfterAllMore(topo, q, stock.bw, done, cur);
  }

  lemma StartGiven(topo: Topo, stock: Stock, q: Wish, linkBw: seq<real>, nHops: int, netBw: seq<real>,
                   done: seq<seq<Hop>>, starts: seq<nat>, n: nat)
    requires ValidTopo(topo) && n < |topo.nets| == |netBw| && Accounted(topo, stock, q, linkBw, nHops, netBw, done, [], starts + [n])
    ensures Accounted(topo, stock, q, linkBw, nHops, TakeFrom(topo, netBw, n, -(Truncated(q.bwInter) as real)), done, [], starts)
  {
    hide ValidTopo, After, AfterAll, Length, LengthAll, Truncated, TakeFrom;
    var bw, more := Truncated(q.bwInter) as real, starts + [n];
    assert more[..|starts|] == starts;
    forall k | 0 <= k < |starts| ensures starts[k] < |topo.nets| && NicAfter(topo, stock.nicBw, bw, starts[..k])[starts[k]] >= bw {
      assert more[k] == starts[k] && more[..k] == starts[..k];
    }
    NicGivenBack(topo, NicAfter(topo, stock.nicBw, bw, starts), n, bw);
  }

  lemma DoneShorter(topo: Topo, q: Wish, w: Written, done: seq<seq<Hop>>, starts: seq<nat>, starts': seq<nat>)
    requires DoneOk(topo, q, w, done, starts) && starts' <= starts && |done| <= |starts'|
    ensures DoneOk(topo, q, w, done, starts')
  {
    hide ChannelOk, Below;
    forall d | 0 <= d < |done| ensures ChannelOk(topo, q, w, d, done[d], starts') {
      BelowRefl(w, d + 1);
      ChannelKept(topo, q, w, w, d, done[d], starts, starts');
    }
  }

  /** A hop given back is as if it had not been taken. */
  lemma HopGiven(topo: Topo, stock: Stock, q: Wish, linkBw: seq<real>, nHops: int, netBw: seq<real>,
                 done: seq<seq<Hop>>, before: seq<Hop>, starts: seq<nat>, h: Hop, cost: real)
    requires ValidTopo(topo) && Accounted(topo, stock, q, linkBw, nHops, netBw, done, before + [h], starts)
    requires h.mult == 1 && HopCost(q, h) == Times(cost, 1)
    ensures var p := topo.path(h.a, h.b);
      PathOk(topo, p) && Accounted(topo, stock, q, Charged(topo, linkBw, h.a, p, |p.links|, Times(cost, -1)), nHops - |p.links|, netBw, done, before, starts)
  {
    hide ValidTopo, After, AfterAll, Length, LengthAll, NicsAfford, NicAfter, HopCost, Charged, Times;
    var avail := AfterAll(topo, q, stock.bw, done);
    AfterMore(topo, q, avail, before, h);
    UndoneBy(topo, After(topo, q, avail, before), h.a, topo.path(h.a, h.b), cost, 1);
  }

  function Times(x: real, mult: int): real { x * mult as real }

  /** The path is of an allowed type, and every link has the bandwidth it would be charged. */
  ghost predicate Passable(topo: Topo, g: Graph, avail: seq<real>, h: Hop)
    requires ValidTopo(topo)
  {
    var p := topo.path(h.a, h.b);
    PathOk(topo, p) && Near(topo, WishOf(g), h) && NonNeg(Charged(topo, avail, h.a, p, |p.links|, Times(Cost(g, h.a, h.b), h.mult)))
  }

  lemma GpuHopCost(g: Graph, from: End, gpu: nat)
    ensures HopCost(WishOf(g), Hop(from, AtGpu(gpu), 1)) == Times(Cost(g, from, AtGpu(gpu)), 1)
  {
  }

  lemma NicHopCost(g: Graph, gpu: nat, n: nat)
    ensures HopCost(WishOf(g), Hop(AtGpu(gpu), AtNet(n), 1)) == Times(Halved(g), 1)
  {
  }

  lemma BetweenEnds(topo: Topo, g: Graph, down: bool, gpu: nat, d: nat)
    requires d < |topo.gpus|
    ensures IsEnd(topo, FromEnd(down, d)) && IsEnd(topo, ToEnd(down, d)) && FromEnd(down, d) != Nowhere
    ensures Cost(g, FromEnd(down, d), ToEnd(down, d)) == g.bwIntra && Share(gpu, d) >= 1
  {
  }

  lemma SwitchStart(topo: Topo, q: Wish, avail: seq<real>, down: bool, gpu: nat)
    requires ValidTopo(topo)
    ensures After(topo, q, avail, SwitchHops(down, gpu, 0)) == avail && Length(topo, SwitchHops(down, gpu, 0)) == 0
    ensures AllNear(topo, q, SwitchHops(down, gpu, 0))
  {
  }

  lemma SwitchNext(topo: Topo, g: Graph, avail: seq<real>, down: bool, gpu: nat, d: nat)
    requires ValidTopo(topo)
    ensures var p := topo.path(FromEnd(down, d), ToEnd(down, d));
      && PathOk(topo, p)
      && After(topo, WishOf(g), avail, SwitchHops(down, gpu, d + 1)) ==
           Charged(topo, After(topo, WishOf(g), avail, SwitchHops(down, gpu, d)), FromEnd(down, d), p, |p.links|, Times(g.bwIntra, Share(gpu, d)))
      && Length(topo, SwitchHops(down, gpu, d + 1)) == Length(topo, SwitchHops(down, gpu, d)) + Share(gpu, d) * |p.links|
      && (-(Share(gpu, d) as int)) * |p.links| == -(Share(gpu, d) * |p.links|)
  {
    hide ValidTopo, After, Length;
    assert HopCost(WishOf(g), Hop(FromEnd(down, d), ToEnd(down, d), Share(gpu, d))) == Times(g.bwIntra, Share(gpu, d));
    AfterMore(topo, WishOf(g), avail, SwitchHops(down, gpu, d), Hop(FromEnd(down, d), ToEnd(down, d), Share(gpu, d)));
  }

  lemma SwitchNear(topo: Topo, q: Wish, down: bool, gpu: nat, d: nat)
    requires AllNear(topo, q, SwitchHops(down, gpu, d)) && Near(topo, q, Hop(FromEnd(down, d), ToEnd(down, d), Share(gpu, d)))
    ensures AllNear(topo, q, SwitchHops(down, gpu, d + 1))
  {
    hide Near;
  }

  lemma FromIsEnd(topo: Topo, q: Wish, w: Written, c: nat, cur: seq<Hop>, starts: seq<nat>, step: nat, backToNet: int, from: End)
    requires Leads(topo, q, w, c, cur, starts, step, backToNet) && ComesFrom(topo, w, c, starts, step, from)
    ensures from == Nowhere || IsEnd(topo, from)
  {
  }

  lemma KeptIsBelow(a: Written, b: Written, c: nat, step: nat, back: bool)
    requires Kept(a, b, c, step, back)
    ensures Below(a, b, c)
  {
  }

  lemma ComesFromKept(topo: Topo, a: Written, b: Written, c: nat, starts: seq<nat>, step: nat, back: bool, from: End)
    requires Kept(a, b, c, step, back) && ComesFrom(topo, a, c, starts, step, from)
    ensures ComesFrom(topo, b, c, starts, step, from)
  {
  }

  lemma NicSame(a: Written, b: Written, c: nat, step: nat, back: bool)
    requires Kept(a, b, c, step, back) && c < |a.nics|
    ensures c < |b.nics| && b.nics[c].0 == a.nics[c].0
  {
  }

  lemma NotBeen(topo: Topo, p: Pattern)
    ensures !Been(topo, p, BackToNet(topo, p))
  {
  }

  lemma NearGpuOf(topo: Topo, n: nat)
    requires ValidTopo(topo) && n < |topo.nets|
    ensures |topo.localGpu| == |topo.nets| && -1 <= topo.localGpu[n] < |topo.gpus|
  {
  }

  lemma SomeGpu(topo: Topo)
    requires ValidTopo(topo)
    ensures |topo.gpus| >= 1
  {
  }

  lemma StartKept(topo: Topo, q: Wish, a: Written, b: Written, c: nat, n: nat)
    requires Below(a, b, c) && StartRule(topo, q, a, c, n)
    ensures StartRule(topo, q, b, c, n)
  {
  }

  lemma RowsLess(topo: Topo, rows: seq<seq<int>>, c: nat)
    requires RowsDone(topo, rows, c + 1)
    ensures RowsDone(topo, rows, c)
  {
  }

  lemma DoneLess(topo: Topo, q: Wish, w: Written, done: seq<seq<Hop>>, cur: seq<Hop>, starts: seq<nat>)
    requires DoneOk(topo, q, w, done + [cur], starts)
    ensures DoneOk(topo, q, w, done, starts)
  {
    hide ChannelOk;
    forall d | 0 <= d < |done| ensures ChannelOk(topo, q, w, d, done[d], starts) { assert (done + [cur])[d] == done[d]; }
  }

  lemma ArrivedStarts(topo: Topo, q: Wish, w: Written, c: nat, cur: seq<Hop>, starts: seq<nat>)
    requires Arrived(topo, q, w, c, cur, starts)
    ensures |starts| == if topo.nets == [] then 0 else c + 1
  {
  }

  /** What the search does not skip the rules allow. */
  lemma NotSkipped(topo: Topo, g: Graph, step: nat, n: nat, start: nat)
    requires n < |topo.nets| && g.nChannels < |g.inter| && IsFirst(topo, start, g.inter[g.nChannels].0) && |topo.gpus| >= 1
    requires ReturnsAt(topo, g.pattern, step) && !SkipsNic(topo, g, step, n, start)
    ensures ReturnRule(topo, WishOf(g), WrittenOf(g), g.nChannels, n)
    ensures Been(topo, g.pattern, step) ==> g.inter[g.nChannels].1 == topo.nets[n].id
  {
    assert SamePort(topo, start, n) || g.crossNic == 1;
    BackFacts(topo, g.pattern, step);
  }

  /** With its last GPU a row is complete, in its order. */
  lemma RowInOrder(topo: Topo, q: Wish, w: Written, c: nat, starts: seq<nat>, gpu: nat, order: Order)
    requires |topo.gpus| >= 1 && c < |w.rows| && RowOk(topo, w.rows[c]) && RowsDone(topo, w.rows, c) && !q.pattern.Nvls?
    requires InTurn(topo, q, w, c, starts, gpu, |topo.gpus| - 1, order) && w.rows[c][|topo.gpus| - 1] == topo.gpus[gpu]
    ensures Chosen(topo, q, w, c, starts)
  {
    hide FreeRanks;
    var n := |topo.gpus|;
    if order.Replay? {
      assert RowOk(topo, w.rows[c - 1]);
      assert forall k :: 0 <= k < n ==> w.rows[c][k] == w.rows[c - 1][k];
    }
    assert RanksTo(topo, w, c, n - 1, gpu) == w.rows[c];
    assert InOrder(topo, q, w, c, starts, order);
  }

  lemma UndoneBy(topo: Topo, avail: seq<real>, a: End, p: Path, cost: real, mult: int)
    requires PathOk(topo, p)
    ensures Charged(topo, Charged(topo, avail, a, p, |p.links|, Times(cost, mult)), a, p, |p.links|, Times(cost, -mult)) == avail
  {
    hide Charged;
    var bw := Times(cost, mult);
    assert Times(cost, -mult) == -bw;
    ChargeUndone(topo, avail, a, p, |p.links|, bw);
  }

  /** The bandwidth a channel needs on a path. */
  function Cost(g: Graph, a: End, b: End): real {
    if (a.AtGpu? || a.AtNvs?) && (b.AtGpu? || b.AtNvs?) then g.bwIntra else g.bwInter
  }
}
