/**
 Which graphs the channel search (src/graph/search.cc) looks at: the ways it offers to go on, and what it means
 that all graphs reached from some point are beaten by the one that is kept.
 */
module TopoOffers {
  import opened Arith
  import opened TopoLinks
  import opened TopoGraph
  import opened TopoRoutes
  import opened TopoStages

  // ---------------------------------------------------------------- what is on offer

  /** One of the orders in which the search looks at every row. Index order from a NIC is not one: it has a timer of its own. */
  ghost predicate Way(topo: Topo, sol: Sol, c: nat, order: Order) {
    (order.Pci? ==> topo.nets == []) && InOrder(topo, WishOf(sol.g), WrittenOf(sol.g), c, sol.starts, order)
  }

  ghost predicate SomeWay(topo: Topo, sol: Sol, c: nat, orders: set<Order>) { exists o :: o in orders && Way(topo, sol, c, o) }

  /** What the search is for. */
  datatype Aim = Aim(q: Wish, min: int, max: nat)

  function AimOf(g: Graph): Aim { Aim(WishOf(g), g.minChannels, g.maxChannels) }

  const ANY: set<Order> := {Pci, Replay, Free}

  /** A graph that the node can carry and the search offers. NVLS graphs, and split trees on one GPU, are not considered. */
  ghost predicate Fits(topo: Topo, stock: Stock, aim: Aim, sol: Sol) {
    && ValidTopo(topo) && AimOf(sol.g) == aim && !aim.q.pattern.Nvls? && GraphOk(topo, sol.g)
    && (aim.q.pattern.SplitTree? && topo.nets != [] ==> |topo.gpus| >= 2)
    && Carries(topo, stock, sol)
    && forall c :: 0 <= c < |sol.chans| ==> SomeWay(topo, sol, c, ANY)
  }

  // ---------------------------------------------------------------- what has been tried

  /** A graph under way: what is written, the complete channels, the NICs, the hops and the GPUs of the next channel, and if it has been back. */
  datatype Part = Part(w: Written, done: seq<seq<Hop>>, starts: seq<nat>, cur: seq<Hop>, ranks: seq<int>, back: bool)

  /** The records of the complete channels are the same, and so are the first GPUs of the next one and the NIC it returns to. */
  predicate Agree(topo: Topo, a: Written, b: Written, c: nat, ranks: seq<int>, back: bool) {
    && c < |a.rows| == |b.rows| == |a.nics| == |b.nics|
    && (forall k :: 0 <= k < c ==> b.rows[k] == a.rows[k])
    && ranks <= b.rows[c]
    && (topo.nets != [] ==> (forall k :: 0 <= k < c ==> b.nics[k] == a.nics[k]) && (back ==> b.nics[c].1 == a.nics[c].1))
  }

  /** The solution goes on from there. */
  predicate Continues(topo: Topo, sol: Sol, p: Part) {
    && |p.done| < |sol.chans| && sol.chans[..|p.done|] == p.done && p.starts <= sol.starts && p.cur <= sol.chans[|p.done|]
    && Agree(topo, p.w, WrittenOf(sol.g), |p.done|, p.ranks, p.back)
  }

  /** No graph that goes on from there in one of these orders is better. */
  ghost predicate Beaten(topo: Topo, stock: Stock, aim: Aim, best: Graph, orders: set<Order>, p: Part) {
    forall sol: Sol :: Fits(topo, stock, aim, sol) && Continues(topo, sol, p) && SomeWay(topo, sol, |p.done|, orders) ==> !Better(topo, sol.g, best)
  }

  ghost predicate AllBeaten(topo: Topo, stock: Stock, aim: Aim, best: Graph, orders: set<Order>, parts: seq<Part>) {
    forall k :: 0 <= k < |parts| ==> Beaten(topo, stock, aim, best, orders, parts[k])
  }

  lemma BeatenBy(topo: Topo, stock: Stock, aim: Aim, best: Graph, orders: set<Order>, p: Part, sol: Sol)
    requires Beaten(topo, stock, aim, best, orders, p)
    requires Fits(topo, stock, aim, sol) && Continues(topo, sol, p) && SomeWay(topo, sol, |p.done|, orders)
    ensures !Better(topo, sol.g, best)
  {
  }

  lemma BeatenStays(topo: Topo, stock: Stock, aim: Aim, a: Graph, b: Graph, orders: set<Order>, p: Part)
    requires Beaten(topo, stock, aim, a, orders, p) && NotWorse(aim.q.pattern, a, b)
    ensures Beaten(topo, stock, aim, b, orders, p)
  {
    hide Fits, Continues, SomeWay, Better, NotWorse;
    forall sol: Sol | Fits(topo, stock, aim, sol) && Continues(topo, sol, p) && SomeWay(topo, sol, |p.done|, orders)
      ensures !Better(topo, sol.g, b)
    {
      FitsPattern(topo, stock, aim, sol);
      StaysBeaten(topo, sol.g, a, b);
    }
  }

  lemma FitsPattern(topo: Topo, stock: Stock, aim: Aim, sol: Sol)
    requires Fits(topo, stock, aim, sol)
    ensures !sol.g.pattern.Nvls? && sol.g.pattern == aim.q.pattern
  {
  }

  lemma AllBeatenStays(topo: Topo, stock: Stock, aim: Aim, a: Graph, b: Graph, orders: set<Order>, parts: seq<Part>)
    requires AllBeaten(topo, stock, aim, a, orders, parts) && NotWorse(aim.q.pattern, a, b)
    ensures AllBeaten(topo, stock, aim, b, orders, parts)
  {
    hide Beaten, NotWorse;
    forall k | 0 <= k < |parts| ensures Beaten(topo, stock, aim, b, orders, parts[k]) {
      BeatenStays(topo, stock, aim, a, b, orders, parts[k]);
    }
  }

  /** One part more, after what is kept may have changed. */
  lemma AllBeatenNext(topo: Topo, stock: Stock, aim: Aim, a: Graph, b: Graph, orders: set<Order>, parts: seq<Part>, i: nat)
    requires i < |parts| && AllBeaten(topo, stock, aim, a, orders, parts[..i]) && NotWorse(aim.q.pattern, a, b)
    requires Beaten(topo, stock, aim, b, orders, parts[i])
    ensures AllBeaten(topo, stock, aim, b, orders, parts[..i + 1])
  {
    hide Beaten, NotWorse;
    AllBeatenStays(topo, stock, aim, a, b, orders, parts[..i]);
    var more := parts[..i + 1];
    forall k | 0 <= k < |more| ensures Beaten(topo, stock, aim, b, orders, more[k]) {
      if k < i { assert parts[..i][k] == parts[k]; }
    }
  }

  lemma NvlsBeaten(topo: Topo, stock: Stock, aim: Aim, best: Graph, orders: set<Order>, p: Part)
    requires aim.q.pattern.Nvls?
    ensures Beaten(topo, stock, aim, best, orders, p)
  {
  }

  /** What is written of later channels, and of this one behind the GPUs it has, does not matter. */
  lemma BeatenKept(topo: Topo, stock: Stock, aim: Aim, best: Graph, orders: set<Order>, p: Part, b: Written, step: nat)
    requires Kept(p.w, b, |p.done|, step, p.back) && |p.w.rows| == |p.w.nics|
    ensures Beaten(topo, stock, aim, best, orders, p) <==> Beaten(topo, stock, aim, best, orders, p.(w := b))
  {
    hide Continues, Fits, SomeWay, Better, Kept;
    forall sol: Sol ensures Continues(topo, sol, p) <==> Continues(topo, sol, p.(w := b)) {
      ContinuesKept(topo, sol, p, b, step);
    }
  }

  lemma ContinuesKept(topo: Topo, sol: Sol, p: Part, b: Written, step: nat)
    requires Kept(p.w, b, |p.done|, step, p.back) && |p.w.rows| == |p.w.nics|
    ensures Continues(topo, sol, p) <==> Continues(topo, sol, p.(w := b))
  {
  }

  // ---------------------------------------------------------------- the next hop of a solution

  /** Channel `c` of a solution. */
  lemma FitsChannel(topo: Topo, stock: Stock, aim: Aim, sol: Sol, c: nat)
    requires Fits(topo, stock, aim, sol) && c < |sol.chans|
    ensures ChannelOk(topo, aim.q, WrittenOf(sol.g), c, sol.chans[c], sol.starts) && |sol.chans| == sol.g.nChannels <= aim.max
    ensures |sol.starts| == if topo.nets == [] then 0 else |sol.chans|
  {
  }

  /** What the records of a solution say about channel `c`. */
  lemma FitsFacts(topo: Topo, stock: Stock, aim: Aim, sol: Sol, c: nat)
    requires Fits(topo, stock, aim, sol) && c < |sol.chans|
    ensures AimOf(sol.g) == aim && ValidTopo(topo) && |topo.gpus| >= 1 && !aim.q.pattern.Nvls? && aim.q.bwIntra >= 0.0 && aim.q.bwInter >= 0.0
    ensures c < |sol.g.intra| == |sol.g.inter| && RowOk(topo, sol.g.intra[c]) && |sol.g.intra[c]| == |topo.gpus|
    ensures HopsOk(topo, sol.chans[c]) && Legs(topo, sol.chans[c]) == Route(topo, aim.q.pattern, WrittenOf(sol.g), c) && AllNear(topo, aim.q, sol.chans[c])
    ensures topo.nets != [] && sol.chans[c] != [] ==> c < |sol.starts| && sol.chans[c][0].a == AtNet(sol.starts[c])
    ensures NonNeg(AfterAll(topo, aim.q, stock.bw, sol.chans))
  {
    FitsChannel(topo, stock, aim, sol, c);
    hide Route, Legs, AfterAll, LengthAll, NicsAfford;
  }

  lemma {:induction false} TrailGrows(topo: Topo, p: Pattern, w: Written, c: nat, k: nat, n: nat)
    requires c < |w.rows| && c < |w.nics| && k <= n <= |w.rows[c]|
    ensures Trail(topo, p, w, c, k) <= Trail(topo, p, w, c, n)
  {
    if k < n { TrailGrows(topo, p, w, c, k, n - 1); }
  }

  /** A complete route goes through each of its GPUs. */
  lemma RouteThrough(topo: Topo, p: Pattern, w: Written, c: nat, k: nat)
    requires c < |w.rows| && c < |w.nics| && |w.rows[c]| == |topo.gpus| >= 1 && k < |topo.gpus| && !p.Nvls?
    ensures var rank := w.rows[c][k];
      Trail(topo, p, w, c, k) + Arrive(topo, w, c, k, rank) + Return(topo, p, w, c, k, rank) <= Route(topo, p, w, c)
  {
    hide Trail, Arrive, Return, SwitchLegs, ReturnsAt;
    TrailNext(topo, p, w, c, k);
    TrailGrows(topo, p, w, c, k + 1, |topo.gpus|);
  }

  lemma TrailNext(topo: Topo, p: Pattern, w: Written, c: nat, k: nat)
    requires c < |w.rows| && c < |w.nics| && k < |w.rows[c]|
    ensures Trail(topo, p, w, c, k + 1) == Trail(topo, p, w, c, k) + Arrive(topo, w, c, k, w.rows[c][k]) + Return(topo, p, w, c, k, w.rows[c][k])
  {
    hide Arrive, Return;
  }

  /** Trails of agreeing records. */
  lemma {:induction false} TrailAgrees(topo: Topo, p: Pattern, a: Written, b: Written, c: nat, ranks: seq<int>, back: bool, k: nat)
    requires Agree(topo, a, b, c, ranks, back) && k <= |ranks| && k <= |a.rows[c]| && (forall j :: 0 <= j < k ==> a.rows[c][j] == ranks[j])
    requires topo.nets != [] ==> b.nics[c].0 == a.nics[c].0
    requires back || forall j :: 0 <= j < k ==> !ReturnsAt(topo, p, j)
    ensures k <= |b.rows[c]| && Trail(topo, p, b, c, k) == Trail(topo, p, a, c, k)
  {
    hide ReturnsAt;
    if k > 0 {
      TrailAgrees(topo, p, a, b, c, ranks, back, k - 1);
      assert b.rows[c][k - 1] == ranks[k - 1] && (k > 1 ==> b.rows[c][k - 2] == ranks[k - 2]);
      ReturnNeedsNics(topo, p, k - 1);
    }
  }

  lemma ReturnNeedsNics(topo: Topo, p: Pattern, k: nat)
    ensures ReturnsAt(topo, p, k) ==> topo.nets != []
  {
  }

  /** The hop behind those taken has the leg behind theirs. */
  lemma NextHop(topo: Topo, hops: seq<Hop>, cur: seq<Hop>, legs: seq<Leg>, leg: Leg, route: seq<Leg>) returns (h: Hop)
    requires HopsOk(topo, hops) && Legs(topo, hops) == route && cur <= hops && HopsOk(topo, cur) && Legs(topo, cur) == legs && legs + [leg] <= route
    ensures cur + [h] <= hops && h in hops && HopOk(topo, h) && Leg(StopOf(topo, h.a), StopOf(topo, h.b), h.mult) == leg
    ensures cur == [] ==> h == hops[0]
  {
    assert |cur| == |legs| && (legs + [leg])[|legs|] == leg;
    h := hops[|cur|];
    assert Legs(topo, hops)[|cur|] == leg;
    assert HopOk(topo, hops[|cur|]);
  }

  lemma GpuOfRank(topo: Topo, e: End, g: nat)
    requires ValidTopo(topo) && IsEnd(topo, e) && g < |topo.gpus| && StopOf(topo, e) == GpuStop(topo.gpus[g])
    ensures e == AtGpu(g)
  {
  }

  /** A solution starts its channel from the NIC taken. */
  lemma SameStartNic(topo: Topo, q: Wish, w: Written, c: nat, cur: seq<Hop>, starts: seq<nat>, legs: seq<Leg>, b: Written, hops: seq<Hop>, starts': seq<nat>)
    requires Riding(topo, q, w, c, cur, starts, legs) && ChannelOk(topo, q, b, c, hops, starts') && starts <= starts'
    ensures topo.nets != [] ==> c < |starts| && c < |w.nics| && starts'[c] == starts[c] && b.nics[c].0 == w.nics[c].0
  {
    hide Legs, Route, HopsOk, AllNear, RowOk;
  }

  /** What a solution that goes on from here does next: it is at the same point of its route. */
  lemma SamePoint(topo: Topo, stock: Stock, aim: Aim, sol: Sol, p: Part, backToNet: int)
    requires Fits(topo, stock, aim, sol) && Continues(topo, sol, p) && Leads(topo, aim.q, p.w, |p.done|, p.cur, p.starts, |p.ranks|, backToNet)
    requires p.back == Been(topo, aim.q.pattern, backToNet) && p.w.rows[|p.done|][..|p.ranks|] == p.ranks
    ensures var c, b := |p.done|, WrittenOf(sol.g);
      && c < |b.rows| && c < |b.nics| && |p.ranks| <= |b.rows[c]|
      && HopsOk(topo, p.cur) && Legs(topo, p.cur) == Trail(topo, aim.q.pattern, b, c, |p.ranks|)
      && (topo.nets != [] ==> c < |p.starts| && sol.starts[c] == p.starts[c] && b.nics[c].0 == p.w.nics[c].0)
  {
    hide Fits, ChannelOk, Trail, ReturnsAt, Been, RowOk, Route;
    var c, b, k, q := |p.done|, WrittenOf(sol.g), |p.ranks|, aim.q;
    FitsChannel(topo, stock, aim, sol, c);
    FitsFacts(topo, stock, aim, sol, c);
    SameStartNic(topo, q, p.w, c, p.cur, p.starts, Trail(topo, q.pattern, p.w, c, k), b, sol.chans[c], sol.starts);
    BackFacts(topo, q.pattern, k);
    TrailAgrees(topo, q.pattern, p.w, b, c, p.ranks, p.back, k);
  }

  /** ... also once it is at its GPU, before it returns to a NIC from there. */
  lemma SameStand(topo: Topo, stock: Stock, aim: Aim, sol: Sol, p: Part, step: nat, rank: int)
    requires Fits(topo, stock, aim, sol) && Continues(topo, sol, p) && Stands(topo, aim.q, p.w, |p.done|, p.cur, p.starts, step, step, rank)
    requires p.back == Been(topo, aim.q.pattern, step) && p.ranks == p.w.rows[|p.done|][..step] + [rank]
    ensures var c, b := |p.done|, WrittenOf(sol.g);
      && c < |b.rows| && c < |b.nics| && step < |b.rows[c]| && b.rows[c][step] == rank
      && HopsOk(topo, p.cur) && Legs(topo, p.cur) == Trail(topo, aim.q.pattern, b, c, step) + Arrive(topo, b, c, step, rank)
      && (topo.nets != [] ==> c < |p.starts| && sol.starts[c] == p.starts[c] && b.nics[c].0 == p.w.nics[c].0)
  {
    hide Fits, ChannelOk, Trail, ReturnsAt, Been, RowOk, Route, NextBack;
    var c, b, q := |p.done|, WrittenOf(sol.g), aim.q;
    FitsChannel(topo, stock, aim, sol, c);
    FitsFacts(topo, stock, aim, sol, c);
    SameStartNic(topo, q, p.w, c, p.cur, p.starts, Stand(topo, q.pattern, p.w, c, step, step, rank), b, sol.chans[c], sol.starts);
    RanksAre(p.ranks, p.w.rows[c], b.rows[c], step, rank);
    BackFacts(topo, q.pattern, step);
    if !p.back { StandBack(topo, q.pattern, step); }
    TrailAgrees(topo, q.pattern, p.w, b, c, p.ranks, p.back, step);
  }

  lemma RanksAre(ranks: seq<int>, row: seq<int>, row': seq<int>, step: nat, rank: int)
    requires step < |row| && ranks == row[..step] + [rank] && ranks <= row'
    ensures step < |row'| && row'[step] == rank && forall k :: 0 <= k < step ==> row[k] == ranks[k] == row'[k]
  {
  }

  lemma StandBack(topo: Topo, p: Pattern, step: nat)
    requires ReturnsAt(topo, p, step) && !Been(topo, p, step)
    ensures forall j :: 0 <= j < step ==> !ReturnsAt(topo, p, j)
  {
  }

  // ---------------------------------------------------------------- what a solution needs is there

  lemma {:induction false} NonNegBefore(topo: Topo, q: Wish, avail: seq<real>, hops: seq<Hop>)
    requires ValidTopo(topo) && q.bwIntra >= 0.0 && q.bwInter >= 0.0 && NonNeg(After(topo, q, avail, hops))
    ensures NonNeg(avail)
  {
    if hops != [] {
      var front, h := hops[..|hops| - 1], hops[|hops| - 1];
      var left, path := After(topo, q, avail, front), topo.path(h.a, h.b);
      assert HopCost(q, h) >= 0.0;
      hide After;
      PathIsOk(topo, h.a, h.b);
      ChargedBefore(topo, left, h.a, path, HopCost(q, h));
      NonNegBefore(topo, q, avail, front);
    }
  }

  lemma ChargedBefore(topo: Topo, avail: seq<real>, start: End, path: Path, bw: real)
    requires PathOk(topo, path) && bw >= 0.0 && NonNeg(Charged(topo, avail, start, path, |path.links|, bw))
    ensures NonNeg(avail)
  {
    var left := Charged(topo, avail, start, path, |path.links|, bw);
    forall l | 0 <= l < |avail| ensures avail[l] >= 0.0 {
      TakenGrows(topo, start, path, 0, |path.links|, bw, l);
      assert left[l] >= 0.0;
    }
  }

  lemma {:induction false} NonNegBeforeAll(topo: Topo, q: Wish, avail: seq<real>, chans: seq<seq<Hop>>, c: nat)
    requires ValidTopo(topo) && q.bwIntra >= 0.0 && q.bwInter >= 0.0 && c <= |chans| && NonNeg(AfterAll(topo, q, avail, chans))
    ensures NonNeg(AfterAll(topo, q, avail, chans[..c]))
    decreases |chans|
  {
    hide After, ValidTopo, NonNeg;
    if c == |chans| {
      assert chans[..c] == chans;
    } else {
      var front := chans[..|chans| - 1];
      NonNegBefore(topo, q, AfterAll(topo, q, avail, front), chans[|chans| - 1]);
      NonNegBeforeAll(topo, q, avail, front, c);
      assert front[..c] == chans[..c];
    }
  }

  /** Wherever a solution is on its way, the bandwidth was there and the paths were near. */
  lemma FitsAffords(topo: Topo, stock: Stock, aim: Aim, sol: Sol, done: seq<seq<Hop>>, hops: seq<Hop>, h: Hop)
    requires Fits(topo, stock, aim, sol) && |done| < |sol.chans| && sol.chans[..|done|] == done && hops + [h] <= sol.chans[|done|]
    ensures ValidTopo(topo) && Near(topo, aim.q, h) && NonNeg(After(topo, aim.q, AfterAll(topo, aim.q, stock.bw, done), hops + [h]))
  {
    hide Fits, RowOk, Route, Legs, Near, After, AfterAll, NonNeg, ValidTopo;
    var c, q, all := |done|, aim.q, sol.chans[|done|];
    FitsFacts(topo, stock, aim, sol, c);
    assert all[|hops|] == h && Near(topo, q, all[|hops|]);
    NonNegBeforeAll(topo, q, stock.bw, sol.chans, c + 1);
    assert sol.chans[..c + 1] == done + [all];
    AfterAllMore(topo, q, stock.bw, done, all);
    var rest := all[|hops| + 1..];
    assert all == (hops + [h]) + rest;
    AfterConcat(topo, q, AfterAll(topo, q, stock.bw, done), hops + [h], rest);
    NonNegBefore(topo, q, After(topo, q, AfterAll(topo, q, stock.bw, done), hops + [h]), rest);
  }

  // ---------------------------------------------------------------- one more GPU

  /** The hop a solution takes to the GPU that comes next. */
  lemma GpuHopNext(topo: Topo, stock: Stock, aim: Aim, sol: Sol, p: Part, step: nat, backToNet: int, from: End, g: nat)
    requires Fits(topo, stock, aim, sol) && Continues(topo, sol, p) && Leads(topo, aim.q, p.w, |p.done|, p.cur, p.starts, step, backToNet)
    requires ComesFrom(topo, p.w, |p.done|, p.starts, step, from) && g < |topo.gpus| && step < |p.w.rows[|p.done|]| && from != Nowhere
    requires p.back == Been(topo, aim.q.pattern, backToNet) && p.ranks == p.w.rows[|p.done|][..step] + [topo.gpus[g]]
    ensures Continues(topo, sol, p.(cur := p.cur + [Hop(from, AtGpu(g), 1)]))
  {
    hide Fits, RowOk, Trail, Route, Legs, Been, Leads, ValidTopo;
    var c, b, q := |p.done|, WrittenOf(sol.g), aim.q;
    FitsFacts(topo, stock, aim, sol, c);
    LeadsRow(topo, q, p.w, c, p.cur, p.starts, step, backToNet);
    var less := p.(ranks := p.w.rows[c][..step]);
    assert less.ranks <= p.ranks;
    SamePoint(topo, stock, aim, sol, less, backToNet);
    RanksAre(p.ranks, p.w.rows[c], b.rows[c], step, topo.gpus[g]);
    RouteThrough(topo, q.pattern, b, c, step);
    TrailStarts(topo, q.pattern, b, c, step);
    var arrive := Arrive(topo, b, c, step, topo.gpus[g]);
    var h := NextHop(topo, sol.chans[c], p.cur, Trail(topo, q.pattern, b, c, step), arrive[0], Route(topo, q.pattern, b, c));
    GpuOfRank(topo, h.b, g);
    if step > 0 { GpuOfRank(topo, h.a, from.index); }
  }

  lemma LeadsRow(topo: Topo, q: Wish, w: Written, c: nat, cur: seq<Hop>, starts: seq<nat>, step: nat, backToNet: int)
    requires Leads(topo, q, w, c, cur, starts, step, backToNet)
    ensures c < |w.rows| && c < |w.nics| && step <= |w.rows[c]|
  {
  }

  /** The part reached when GPU `g` is. */
  lemma GpuBeaten(topo: Topo, stock: Stock, aim: Aim, best: Graph, orders: set<Order>, p: Part, step: nat, backToNet: int, from: End, g: nat)
    requires Leads(topo, aim.q, p.w, |p.done|, p.cur, p.starts, step, backToNet)
    requires ComesFrom(topo, p.w, |p.done|, p.starts, step, from) && g < |topo.gpus| && step < |p.w.rows[|p.done|]| && from != Nowhere
    requires p.back == Been(topo, aim.q.pattern, backToNet) && p.ranks == p.w.rows[|p.done|][..step] + [topo.gpus[g]]
    requires Beaten(topo, stock, aim, best, orders, p.(cur := p.cur + [Hop(from, AtGpu(g), 1)])) || Lacks(topo, stock, aim.q, p.done, p.cur, Hop(from, AtGpu(g), 1))
    ensures Beaten(topo, stock, aim, best, orders, p)
  {
    hide Fits, Continues, SomeWay, Better, Leads, ComesFrom, Been, Lacks;
    var h := Hop(from, AtGpu(g), 1);
    forall sol: Sol | Fits(topo, stock, aim, sol) && Continues(topo, sol, p) && SomeWay(topo, sol, |p.done|, orders)
      ensures !Better(topo, sol.g, best)
    {
      GpuHopNext(topo, stock, aim, sol, p, step, backToNet, from, g);
      LacksNone(topo, stock, aim, sol, p, h);
      BeatenBy(topo, stock, aim, best, orders, p.(cur := p.cur + [h]), sol);
    }
  }

  /** The hop is too far or there is not enough bandwidth for it. */
  ghost predicate Lacks(topo: Topo, stock: Stock, q: Wish, done: seq<seq<Hop>>, cur: seq<Hop>, h: Hop) {
    ValidTopo(topo) ==> !(Near(topo, q, h) && NonNeg(After(topo, q, AfterAll(topo, q, stock.bw, done), cur + [h])))
  }

  lemma LacksNone(topo: Topo, stock: Stock, aim: Aim, sol: Sol, p: Part, h: Hop)
    requires Fits(topo, stock, aim, sol) && Continues(topo, sol, p.(cur := p.cur + [h]))
    ensures !Lacks(topo, stock, aim.q, p.done, p.cur, h)
  {
    FitsAffords(topo, stock, aim, sol, p.done, p.cur, h);
  }

  /** The GPUs that can be number `step` when the one before is `gpu`. */
  predicate Comes(topo: Topo, p: Pattern, w: Written, used: seq<set<nat>>, c: nat, step: nat, order: Order, gpu: nat, g: nat)
    requires |topo.gpus| >= 1
  {
    match order
    case Pci => g == step
    case Replay => c >= 1 && c <= |w.rows| && step < |w.rows[c - 1]| && g < |topo.gpus| && topo.gpus[g] == w.rows[c - 1][step]
    case Free => CanFollow(topo, used, c, gpu, g) && (topo.nvs != 0 ==> Neighbour(topo, p, gpu, g))
  }

  /** A solution goes on to one of them. */
  lemma GpuComes(topo: Topo, stock: Stock, aim: Aim, sol: Sol, p: Part, used: seq<set<nat>>, step: nat, order: Order, gpu: nat) returns (g: nat)
    requires Fits(topo, stock, aim, sol) && Continues(topo, sol, p) && Way(topo, sol, |p.done|, order) && |p.ranks| == step + 1 < |topo.gpus|
    requires Prefix(topo, p.w.rows, used, |p.done|, step + 1) && p.w.rows[|p.done|][..step + 1] == p.ranks
    requires gpu < |topo.gpus| && p.ranks[step] == topo.gpus[gpu]
    ensures g < |topo.gpus| && Comes(topo, aim.q.pattern, p.w, used, |p.done|, step + 1, order, gpu, g)
    ensures Continues(topo, sol, p.(ranks := p.ranks + [topo.gpus[g]]))
  {
    hide Fits, Route, Legs, ValidTopo, CanFollow, Prefix, RowOk, RankNext, Nearest, Neighbour, AllNear, HopsOk, NonNeg, AfterAll;
    var c, row := |p.done|, sol.g.intra[|p.done|];
    FitsFacts(topo, stock, aim, sol, c);
    g := NextOfRow(topo, row, p.ranks);
    if order.Free? {
      var k := step + 1;
      assert RankNext(topo, aim.q.pattern, row[k - 1], row[k]);
      FollowsFree(topo, aim.q.pattern, p.w.rows, used, c, p.ranks, row, gpu, g);
    }
    if order.Pci? { SameGpu(topo, step + 1, g); }
  }

  lemma SameGpu(topo: Topo, g: nat, h: nat)
    requires ValidTopo(topo) && g < |topo.gpus| && h < |topo.gpus| && topo.gpus[g] == topo.gpus[h]
    ensures g == h
  {
  }

  lemma NextOfRow(topo: Topo, row: seq<int>, ranks: seq<int>) returns (g: nat)
    requires RowOk(topo, row) && ranks <= row && |ranks| < |row|
    ensures g < |topo.gpus| && topo.gpus[g] == row[|ranks|] && ranks + [topo.gpus[g]] <= row
  {
    assert row[|ranks|] in topo.gpus;
    g :| g < |topo.gpus| && topo.gpus[g] == row[|ranks|];
  }

  lemma FollowsFree(topo: Topo, p: Pattern, rows: seq<seq<int>>, used: seq<set<nat>>, c: nat, ranks: seq<int>, row: seq<int>, gpu: nat, g: nat)
    requires RowOk(topo, row) && ranks <= row && 1 <= |ranks| < |row| && RankNext(topo, p, row[|ranks| - 1], row[|ranks|])
    requires gpu < |topo.gpus| && topo.gpus[gpu] == row[|ranks| - 1] && g < |topo.gpus| && topo.gpus[g] == row[|ranks|]
    requires Prefix(topo, rows, used, c, |ranks|) && rows[c][..|ranks|] == ranks
    ensures CanFollow(topo, used, c, gpu, g) && (topo.nvs != 0 ==> Neighbour(topo, p, gpu, g))
  {
    forall k | 0 <= k < |ranks| ensures rows[c][k] == row[k] { assert rows[c][..|ranks|][k] == ranks[k] == row[k]; }
  }

  /** All GPUs that can come next have been tried. */
  lemma NextBeaten(topo: Topo, stock: Stock, aim: Aim, best: Graph, p: Part, used: seq<set<nat>>, step: nat, order: Order, gpu: nat, next: seq<nat>, parts: seq<Part>)
    requires |p.ranks| == step + 1 < |topo.gpus| && Prefix(topo, p.w.rows, used, |p.done|, step + 1) && p.w.rows[|p.done|][..step + 1] == p.ranks
    requires gpu < |topo.gpus| && p.ranks[step] == topo.gpus[gpu]
    requires forall g: nat :: g < |topo.gpus| && Comes(topo, aim.q.pattern, p.w, used, |p.done|, step + 1, order, gpu, g) ==> g in next
    requires |parts| == |next| && (forall k :: 0 <= k < |next| ==> next[k] < |topo.gpus| && parts[k] == p.(ranks := p.ranks + [topo.gpus[next[k]]]))
    requires AllBeaten(topo, stock, aim, best, {order}, parts)
    ensures Beaten(topo, stock, aim, best, {order}, p)
  {
    hide Fits, Continues, SomeWay, Way, Better, Comes, Prefix;
    forall sol: Sol | Fits(topo, stock, aim, sol) && Continues(topo, sol, p) && SomeWay(topo, sol, |p.done|, {order})
      ensures !Better(topo, sol.g, best)
    {
      OneWay(topo, sol, |p.done|, order);
      var g := GpuComes(topo, stock, aim, sol, p, used, step, order, gpu);
      assert g in next;
      var k :| 0 <= k < |next| && next[k] == g;
      BeatenBy(topo, stock, aim, best, {order}, parts[k], sol);
    }
  }

  lemma OneWay(topo: Topo, sol: Sol, c: nat, order: Order)
    ensures SomeWay(topo, sol, c, {order}) <==> Way(topo, sol, c, order)
  {
    hide Way;
  }

  // ---------------------------------------------------------------- back to a NIC

  /** The part reached when the channel has returned to NIC `m`. */
  function Returned(topo: Topo, p: Part, gpu: nat, m: nat): Part
    requires |p.done| < |p.w.nics| && m < |topo.nets|
  {
    p.(w := p.w.(nics := p.w.nics[|p.done| := (p.w.nics[|p.done|].0, topo.nets[m].id)]), cur := p.cur + [Hop(AtGpu(gpu), AtNet(m), 1)], back := true)
  }

  /** The NIC a solution returns to is one the rules allow. */
  lemma NicNext(topo: Topo, stock: Stock, aim: Aim, sol: Sol, p: Part, step: nat, gpu: nat) returns (m: nat)
    requires Fits(topo, stock, aim, sol) && Continues(topo, sol, p) && gpu < |topo.gpus|
    requires Stands(topo, aim.q, p.w, |p.done|, p.cur, p.starts, step, step, topo.gpus[gpu])
    requires p.back == Been(topo, aim.q.pattern, step) && p.ranks == p.w.rows[|p.done|][..step] + [topo.gpus[gpu]]
    ensures gpu < |topo.gpuNets| && m in topo.gpuNets[gpu] && m < |topo.nets| && |p.done| < |p.w.nics|
    ensures Continues(topo, sol, Returned(topo, p, gpu, m)) && ReturnRule(topo, aim.q, p.w, |p.done|, m)
    ensures p.back ==> p.w.nics[|p.done|].1 == topo.nets[m].id
  {
    hide Fits, RowOk, Trail, Route, Legs, Been, ValidTopo, ReturnRule;
    var c, b, q := |p.done|, WrittenOf(sol.g), aim.q;
    FitsFacts(topo, stock, aim, sol, c);
    SameStand(topo, stock, aim, sol, p, step, topo.gpus[gpu]);
    StandsFacts(topo, q, p.w, c, p.cur, p.starts, step, step, topo.gpus[gpu]);
    RouteThrough(topo, q.pattern, b, c, step);
    var back := Leg(GpuStop(topo.gpus[gpu]), NicStop(b.nics[c].1), 1);
    assert Return(topo, q.pattern, b, c, step, topo.gpus[gpu]) == [back];
    var h := NextHop(topo, sol.chans[c], p.cur, Trail(topo, q.pattern, b, c, step) + Arrive(topo, b, c, step, topo.gpus[gpu]), back, Route(topo, q.pattern, b, c));
    GpuOfRank(topo, h.a, gpu);
    m := h.b.index;
    HopRules(topo, stock, aim, sol, c, h);
    RuleAgrees(topo, q, b, p.w, c, m);
  }

  lemma HopRules(topo: Topo, stock: Stock, aim: Aim, sol: Sol, c: nat, h: Hop)
    requires Fits(topo, stock, aim, sol) && c < |sol.chans| && h in sol.chans[c] && h.b.AtNet?
    ensures topo.nets != [] ==> ListedNic(topo, h) && ReturnRule(topo, aim.q, WrittenOf(sol.g), c, h.b.index)
  {
    hide Route, Legs, AfterAll, LengthAll, NicsAfford, ReturnRule, ListedNic;
    FitsChannel(topo, stock, aim, sol, c);
  }

  lemma RuleAgrees(topo: Topo, q: Wish, a: Written, b: Written, c: nat, m: nat)
    requires ReturnRule(topo, q, a, c, m) && c < |a.nics| == |b.nics| && b.nics[c].0 == a.nics[c].0 && forall k :: 0 <= k < c ==> b.nics[k] == a.nics[k]
    ensures ReturnRule(topo, q, b, c, m)
  {
    hide IsFirst, SamePort;
  }

  /** A channel that is to return from here has started from a NIC. */
  lemma StandsFacts(topo: Topo, q: Wish, w: Written, c: nat, cur: seq<Hop>, starts: seq<nat>, step: nat, backToNet: int, rank: int)
    requires Stands(topo, q, w, c, cur, starts, step, backToNet, rank)
    ensures c < |w.rows| && c < |w.nics| && step < |w.rows[c]|
    ensures backToNet == step ==> topo.nets != [] && ReturnsAt(topo, q.pattern, step) && IsNet(topo, w.nics[c].0)
  {
    if backToNet == step { assert topo.nets[starts[c]].id == w.nics[c].0; }
  }

  /** A NIC that is skipped, or whose hop lacks bandwidth, leads to no solution. */
  lemma ReturnedBeaten(topo: Topo, stock: Stock, aim: Aim, best: Graph, orders: set<Order>, p: Part, gpu: nat, m: nat)
    requires |p.done| < |p.w.nics| && m < |topo.nets| && Lacks(topo, stock, aim.q, p.done, p.cur, Hop(AtGpu(gpu), AtNet(m), 1))
    ensures Beaten(topo, stock, aim, best, orders, Returned(topo, p, gpu, m))
  {
    hide Fits, Better, SomeWay, Lacks;
    var h, p' := Hop(AtGpu(gpu), AtNet(m), 1), Returned(topo, p, gpu, m);
    forall sol: Sol | Fits(topo, stock, aim, sol) && Continues(topo, sol, p') ensures false {
      LacksNone(topo, stock, aim, sol, p'.(cur := p.cur), h);
    }
  }

  /** All NICs it may return to have been tried. */
  lemma NicsBeaten(topo: Topo, stock: Stock, aim: Aim, best: Graph, orders: set<Order>, p: Part, step: nat, gpu: nat)
    requires gpu < |topo.gpus| && Stands(topo, aim.q, p.w, |p.done|, p.cur, p.starts, step, step, topo.gpus[gpu])
    requires p.back == Been(topo, aim.q.pattern, step) && p.ranks == p.w.rows[|p.done|][..step] + [topo.gpus[gpu]]
    requires gpu < |topo.gpuNets| && |p.done| < |p.w.nics|
    requires forall k :: 0 <= k < |topo.gpuNets[gpu]| && AllowedNic(topo, aim.q, p, topo.gpuNets[gpu][k]) ==>
      Beaten(topo, stock, aim, best, orders, Returned(topo, p, gpu, topo.gpuNets[gpu][k]))
    ensures Beaten(topo, stock, aim, best, orders, p)
  {
    hide Fits, Continues, SomeWay, Better, Stands, Been, ReturnRule, ValidTopo;
    forall sol: Sol | Fits(topo, stock, aim, sol) && Continues(topo, sol, p) && SomeWay(topo, sol, |p.done|, orders)
      ensures !Better(topo, sol.g, best)
    {
      var m := NicNext(topo, stock, aim, sol, p, step, gpu);
      var k :| 0 <= k < |topo.gpuNets[gpu]| && topo.gpuNets[gpu][k] == m;
      BeatenBy(topo, stock, aim, best, orders, Returned(topo, p, gpu, m), sol);
    }
  }

  /** The rules let the channel return to NIC `m`. */
  predicate AllowedNic(topo: Topo, q: Wish, p: Part, m: nat) {
    && m < |topo.nets| && |p.done| < |p.w.nics| && ReturnRule(topo, q, p.w, |p.done|, m)
    && (p.back ==> p.w.nics[|p.done|].1 == topo.nets[m].id)
  }

  // ---------------------------------------------------------------- complete channels

  /** Graphs that differ in their records only compare alike. */
  lemma BetterSame(topo: Topo, g: Graph, h: Graph, best: Graph)
    requires AimOf(g) == AimOf(h) && g.nChannels == h.nChannels && g.nHops == h.nHops
    ensures Better(topo, g, best) <==> Better(topo, h, best)
  {
  }

  /** Routes of agreeing records. */
  lemma RouteAgrees(topo: Topo, p: Pattern, a: Written, b: Written, c: nat)
    requires c < |a.rows| && Agree(topo, a, b, c, a.rows[c], true) && |a.rows[c]| == |b.rows[c]| == |topo.gpus| >= 1 && !p.Nvls?
    requires topo.nets != [] ==> b.nics[c].0 == a.nics[c].0
    ensures Route(topo, p, b, c) == Route(topo, p, a, c) && b.rows[c] == a.rows[c]
  {
    TrailAgrees(topo, p, a, b, c, a.rows[c], true, |topo.gpus|);
  }

  /** A solution that goes on from a complete channel has that channel. */
  lemma ChannelSame(topo: Topo, stock: Stock, aim: Aim, sol: Sol, p: Part)
    requires Fits(topo, stock, aim, sol) && Continues(topo, sol, p) && Arrived(topo, aim.q, p.w, |p.done|, p.cur, p.starts)
    requires p.back && p.ranks == p.w.rows[|p.done|]
    ensures sol.chans[|p.done|] == p.cur
    ensures |p.done| + 1 < |sol.chans| ==> Continues(topo, sol, Part(p.w, p.done + [p.cur], p.starts, [], [], false))
  {
    hide Fits, ChannelOk, RowOk, Route, Legs, ValidTopo;
    var c, b, q := |p.done|, WrittenOf(sol.g), aim.q;
    FitsChannel(topo, stock, aim, sol, c);
    FitsFacts(topo, stock, aim, sol, c);
    SameStartNic(topo, q, p.w, c, p.cur, p.starts, Route(topo, q.pattern, p.w, c), b, sol.chans[c], sol.starts);
    RouteAgrees(topo, q.pattern, p.w, b, c);
    assert |sol.chans[c]| == |Legs(topo, sol.chans[c])| == |Legs(topo, p.cur)| == |p.cur|;
    assert sol.chans[c] == p.cur;
    if c + 1 < |sol.chans| { FitsFacts(topo, stock, aim, sol, c + 1); }
    assert sol.chans[..c + 1] == p.done + [p.cur];
  }

  /** Everything that starts with these channels is beaten: the graph itself, and all with more channels. */
  lemma DoneBeaten(topo: Topo, stock: Stock, aim: Aim, best: Graph, p: Part, whole: Graph)
    requires Arrived(topo, aim.q, p.w, |p.done|, p.cur, p.starts) && p.back && p.ranks == p.w.rows[|p.done|]
    requires AimOf(whole) == aim && whole.nChannels == |p.done| + 1 && whole.nHops == stock.hops + LengthAll(topo, p.done + [p.cur])
    requires !aim.q.pattern.Nvls? ==> !Better(topo, whole, best)
    requires |p.done| + 1 < aim.max ==> Beaten(topo, stock, aim, best, ANY, Part(p.w, p.done + [p.cur], p.starts, [], [], false))
    ensures Beaten(topo, stock, aim, best, ANY, p)
  {
    hide Fits, Continues, SomeWay, Better, Arrived, LengthAll;
    forall sol: Sol | Fits(topo, stock, aim, sol) && Continues(topo, sol, p) && SomeWay(topo, sol, |p.done|, ANY)
      ensures !Better(topo, sol.g, best)
    {
      DoneBeats(topo, stock, aim, best, p, whole, sol);
    }
  }

  lemma DoneBeats(topo: Topo, stock: Stock, aim: Aim, best: Graph, p: Part, whole: Graph, sol: Sol)
    requires Arrived(topo, aim.q, p.w, |p.done|, p.cur, p.starts) && p.back && p.ranks == p.w.rows[|p.done|]
    requires AimOf(whole) == aim && whole.nChannels == |p.done| + 1 && whole.nHops == stock.hops + LengthAll(topo, p.done + [p.cur])
    requires !aim.q.pattern.Nvls? ==> !Better(topo, whole, best)
    requires |p.done| + 1 < aim.max ==> Beaten(topo, stock, aim, best, ANY, Part(p.w, p.done + [p.cur], p.starts, [], [], false))
    requires Fits(topo, stock, aim, sol) && Continues(topo, sol, p)
    ensures !Better(topo, sol.g, best)
  {
    hide Fits, SomeWay, Better, Beaten, Arrived, ChannelOk, LengthAll;
    var c, next := |p.done|, Part(p.w, p.done + [p.cur], p.starts, [], [], false);
    ChannelSame(topo, stock, aim, sol, p);
    FitsChannel(topo, stock, aim, sol, c);
    FitsPattern(topo, stock, aim, sol);
    FitsHops(topo, stock, aim, sol);
    if |sol.chans| == c + 1 {
      assert sol.chans == sol.chans[..c] + [sol.chans[c]];
      BetterSame(topo, sol.g, whole, best);
    } else {
      FitsWay(topo, stock, aim, sol, c + 1);
      hide Continues;
      BeatenBy(topo, stock, aim, best, ANY, next, sol);
    }
  }

  lemma FitsHops(topo: Topo, stock: Stock, aim: Aim, sol: Sol)
    requires Fits(topo, stock, aim, sol)
    ensures AimOf(sol.g) == aim && sol.g.nHops == stock.hops + LengthAll(topo, sol.chans) && sol.g.nChannels == |sol.chans|
  {
  }

  lemma FitsWay(topo: Topo, stock: Stock, aim: Aim, sol: Sol, c: nat)
    requires Fits(topo, stock, aim, sol) && c < |sol.chans|
    ensures SomeWay(topo, sol, c, ANY)
  {
  }

  /** A solution in one of fewer orders. */
  lemma BeatenFewer(topo: Topo, stock: Stock, aim: Aim, best: Graph, orders: set<Order>, p: Part)
    requires Beaten(topo, stock, aim, best, ANY, p)
    ensures Beaten(topo, stock, aim, best, orders, p)
  {
    hide Fits, Continues, SomeWay, Better;
    forall sol: Sol | Fits(topo, stock, aim, sol) && Continues(topo, sol, p) && SomeWay(topo, sol, |p.done|, orders)
      ensures !Better(topo, sol.g, best)
    {
      FitsMore(topo, stock, aim, sol, p);
    }
  }

  lemma FitsMore(topo: Topo, stock: Stock, aim: Aim, sol: Sol, p: Part)
    requires Fits(topo, stock, aim, sol) && Continues(topo, sol, p)
    ensures SomeWay(topo, sol, |p.done|, ANY)
  {
    hide SomeWay;
  }

  /** At the end of its row every channel has been back, if it ever goes back. */
  lemma BackBeaten(topo: Topo, stock: Stock, aim: Aim, best: Graph, orders: set<Order>, p: Part, backToNet: int)
    requires |topo.gpus| >= 1 && backToNet == NextBack(topo, aim.q.pattern, |topo.gpus|) && p.back == Been(topo, aim.q.pattern, backToNet)
    requires Beaten(topo, stock, aim, best, orders, p.(back := true))
    ensures Beaten(topo, stock, aim, best, orders, p)
  {
    hide Fits, SomeWay, Better;
    forall sol: Sol | Fits(topo, stock, aim, sol) && Continues(topo, sol, p) && SomeWay(topo, sol, |p.done|, orders)
      ensures !Better(topo, sol.g, best)
    {
      FitsSplit(topo, stock, aim, sol);
      BeatenBy(topo, stock, aim, best, orders, p.(back := true), sol);
    }
  }

  lemma FitsSplit(topo: Topo, stock: Stock, aim: Aim, sol: Sol)
    requires Fits(topo, stock, aim, sol)
    ensures !aim.q.pattern.Nvls? && (aim.q.pattern.SplitTree? && topo.nets != [] ==> |topo.gpus| >= 2)
  {
  }

  /** The way around a ring. */
  lemma AroundBeaten(topo: Topo, stock: Stock, aim: Aim, best: Graph, orders: set<Order>, p: Part, backToNet: int, gpu: nat, g: nat)
    requires |topo.gpus| >= 1 && aim.q.pattern.Ring? && topo.nets == [] && gpu < |topo.gpus| && g < |topo.gpus|
    requires Leads(topo, aim.q, p.w, |p.done|, p.cur, p.starts, |topo.gpus|, backToNet) && p.back == Been(topo, aim.q.pattern, backToNet)
    requires |p.w.rows[|p.done|]| == |topo.gpus| && p.ranks == p.w.rows[|p.done|] && p.ranks[|topo.gpus| - 1] == topo.gpus[gpu] && p.ranks[0] == topo.gpus[g]
    requires Beaten(topo, stock, aim, best, orders, p.(cur := p.cur + [Hop(AtGpu(gpu), AtGpu(g), 1)], back := true)) || Lacks(topo, stock, aim.q, p.done, p.cur, Hop(AtGpu(gpu), AtGpu(g), 1))
    ensures Beaten(topo, stock, aim, best, orders, p)
  {
    hide Fits, SomeWay, Better, Leads, Been, Lacks;
    var h := Hop(AtGpu(gpu), AtGpu(g), 1);
    forall sol: Sol | Fits(topo, stock, aim, sol) && Continues(topo, sol, p) && SomeWay(topo, sol, |p.done|, orders)
      ensures !Better(topo, sol.g, best)
    {
      AroundNext(topo, stock, aim, sol, p, backToNet, gpu, g);
      LacksNone(topo, stock, aim, sol, p, h);
      BeatenBy(topo, stock, aim, best, orders, p.(cur := p.cur + [h], back := true), sol);
    }
  }

  lemma AroundNext(topo: Topo, stock: Stock, aim: Aim, sol: Sol, p: Part, backToNet: int, gpu: nat, g: nat)
    requires Fits(topo, stock, aim, sol) && Continues(topo, sol, p)
    requires |topo.gpus| >= 1 && aim.q.pattern.Ring? && topo.nets == [] && gpu < |topo.gpus| && g < |topo.gpus|
    requires Leads(topo, aim.q, p.w, |p.done|, p.cur, p.starts, |topo.gpus|, backToNet) && p.back == Been(topo, aim.q.pattern, backToNet)
    requires |p.w.rows[|p.done|]| == |topo.gpus| && p.ranks == p.w.rows[|p.done|] && p.ranks[|topo.gpus| - 1] == topo.gpus[gpu] && p.ranks[0] == topo.gpus[g]
    ensures Continues(topo, sol, p.(cur := p.cur + [Hop(AtGpu(gpu), AtGpu(g), 1)]))
  {
    hide Fits, RowOk, Trail, Legs, Been, Leads, ValidTopo;
    var c, b, q, n := |p.done|, WrittenOf(sol.g), aim.q, |topo.gpus|;
    FitsFacts(topo, stock, aim, sol, c);
    SamePoint(topo, stock, aim, sol, p, backToNet);
    assert b.rows[c] == p.ranks;
    var around := Leg(GpuStop(b.rows[c][n - 1]), GpuStop(b.rows[c][0]), 1);
    var h := NextHop(topo, sol.chans[c], p.cur, Trail(topo, q.pattern, b, c, n), around, Route(topo, q.pattern, b, c));
    GpuOfRank(topo, h.a, gpu);
    GpuOfRank(topo, h.b, g);
  }

  // ---------------------------------------------------------------- starting a channel

  /** A solution that takes up the previous row starts with its first GPU. */
  lemma ReplayBeaten(topo: Topo, stock: Stock, aim: Aim, best: Graph, p: Part, g: nat)
    requires p.ranks == [] && |p.done| >= 1 && g < |topo.gpus| && |p.done| <= |p.w.rows| && p.w.rows[|p.done| - 1] != []
    requires topo.gpus[g] == p.w.rows[|p.done| - 1][0] && Beaten(topo, stock, aim, best, {Replay}, p.(ranks := [topo.gpus[g]]))
    ensures Beaten(topo, stock, aim, best, {Replay}, p)
  {
    hide Fits, SomeWay, Better, RankNext, Nearest;
    forall sol: Sol | Fits(topo, stock, aim, sol) && Continues(topo, sol, p) && SomeWay(topo, sol, |p.done|, {Replay})
      ensures !Better(topo, sol.g, best)
    {
      OneWay(topo, sol, |p.done|, Replay);
      BeatenBy(topo, stock, aim, best, {Replay}, p.(ranks := [topo.gpus[g]]), sol);
    }
  }

  /** ... in index order with GPU 0. */
  lemma PciBeaten(topo: Topo, stock: Stock, aim: Aim, best: Graph, p: Part)
    requires p.ranks == [] && |topo.gpus| >= 1 && Beaten(topo, stock, aim, best, {Pci}, p.(ranks := [topo.gpus[0]]))
    ensures Beaten(topo, stock, aim, best, {Pci}, p)
  {
    hide Fits, SomeWay, Better, RankNext, Nearest;
    forall sol: Sol | Fits(topo, stock, aim, sol) && Continues(topo, sol, p) && SomeWay(topo, sol, |p.done|, {Pci})
      ensures !Better(topo, sol.g, best)
    {
      OneWay(topo, sol, |p.done|, Pci);
      BeatenBy(topo, stock, aim, best, {Pci}, p.(ranks := [topo.gpus[0]]), sol);
    }
  }

  /** In free order every first GPU has been tried, or with NICs every nearest one. */
  lemma FirstBeaten(topo: Topo, stock: Stock, aim: Aim, best: Graph, p: Part, parts: seq<Part>, order: seq<nat>)
    requires p.ranks == [] && |parts| == |order| && AllBeaten(topo, stock, aim, best, {Free}, parts)
    requires forall k :: 0 <= k < |parts| ==> order[k] < |topo.gpus| && parts[k] == p.(ranks := [topo.gpus[order[k]]])
    requires forall g: nat :: g < |topo.gpus| ==> g in order
    ensures Beaten(topo, stock, aim, best, {Free}, p)
  {
    hide Fits, Continues, SomeWay, Better;
    forall sol: Sol | Fits(topo, stock, aim, sol) && Continues(topo, sol, p) && SomeWay(topo, sol, |p.done|, {Free})
      ensures !Better(topo, sol.g, best)
    {
      var g := FirstOf(topo, stock, aim, sol, p);
      assert g in order;
      var k :| 0 <= k < |order| && order[k] == g;
      BeatenBy(topo, stock, aim, best, {Free}, parts[k], sol);
    }
  }

  lemma FirstOf(topo: Topo, stock: Stock, aim: Aim, sol: Sol, p: Part) returns (g: nat)
    requires Fits(topo, stock, aim, sol) && Continues(topo, sol, p) && p.ranks == []
    ensures g < |topo.gpus| && Continues(topo, sol, p.(ranks := [topo.gpus[g]]))
  {
    hide Fits, RowOk, Route, Legs, ValidTopo, HopsOk, AllNear, AfterAll, NonNeg;
    FitsFacts(topo, stock, aim, sol, |p.done|);
    g := NextOfRow(topo, sol.g.intra[|p.done|], p.ranks);
    assert p.ranks + [topo.gpus[g]] == [topo.gpus[g]];
  }

  /** A GPU that is not nearest is not the first one of a solution. */
  lemma FarBeaten(topo: Topo, stock: Stock, aim: Aim, best: Graph, p: Part, n: nat, g: nat)
    requires topo.nets != [] && |p.done| < |p.starts| && p.starts[|p.done|] == n && g < |topo.gpus| && p.ranks == [topo.gpus[g]]
    requires !Nearest(topo, n, g, Truncated(aim.q.bwInter))
    ensures Beaten(topo, stock, aim, best, {Free}, p)
  {
    hide Fits, Continues, SomeWay, Better;
    forall sol: Sol | Fits(topo, stock, aim, sol) && Continues(topo, sol, p) && SomeWay(topo, sol, |p.done|, {Free})
      ensures false
    {
      NotFar(topo, stock, aim, sol, p, n, g);
    }
  }

  lemma NotFar(topo: Topo, stock: Stock, aim: Aim, sol: Sol, p: Part, n: nat, g: nat)
    requires topo.nets != [] && |p.done| < |p.starts| && p.starts[|p.done|] == n && g < |topo.gpus| && p.ranks == [topo.gpus[g]]
    requires Fits(topo, stock, aim, sol) && Continues(topo, sol, p) && SomeWay(topo, sol, |p.done|, {Free})
    ensures Nearest(topo, n, g, Truncated(aim.q.bwInter))
  {
    hide Fits, SomeWay, RankNext, Nearest, RowOk, Route, Legs, ValidTopo, Truncated, HopsOk, AllNear, AfterAll, NonNeg;
    FitsFacts(topo, stock, aim, sol, |p.done|);
    OneWay(topo, sol, |p.done|, Free);
    var h: nat :| h < |topo.gpus| && topo.gpus[h] == sol.g.intra[|p.done|][0] && Nearest(topo, sol.starts[|p.done|], h, Truncated(aim.q.bwInter));
    SameGpu(topo, h, g);
  }

  /** The orders a channel is tried in are those that are offered. */
  lemma OrdersBeaten(topo: Topo, stock: Stock, aim: Aim, best: Graph, p: Part)
    requires |p.done| >= 1 ==> Beaten(topo, stock, aim, best, {Replay}, p)
    requires |p.done| == 0 || !aim.q.sameChannels ==> Beaten(topo, stock, aim, best, {Free}, p)
    requires |p.done| == 0 && topo.nets == [] ==> Beaten(topo, stock, aim, best, {Pci}, p)
    ensures Beaten(topo, stock, aim, best, ANY, p)
  {
    hide Fits, Continues, SomeWay, Way, Better;
    forall sol: Sol | Fits(topo, stock, aim, sol) && Continues(topo, sol, p) && SomeWay(topo, sol, |p.done|, ANY)
      ensures !Better(topo, sol.g, best)
    {
      FitsHops(topo, stock, aim, sol);
      var o := WayOf(topo, sol, |p.done|);
      BeatenBy(topo, stock, aim, best, {o}, p, sol);
    }
  }

  lemma WayOf(topo: Topo, sol: Sol, c: nat) returns (o: Order)
    requires SomeWay(topo, sol, c, ANY)
    ensures SomeWay(topo, sol, c, {o})
    ensures (o.Replay? ==> c >= 1) && (o.Free? ==> c == 0 || !sol.g.sameChannels) && (o.Pci? ==> c == 0 && topo.nets == [])
  {
    hide RankNext, Nearest;
    o :| o in ANY && Way(topo, sol, c, o);
    OneWay(topo, sol, c, o);
  }

  /** The part reached when the channel starts from NIC `n`. */
  function Started(topo: Topo, p: Part, n: nat): Part
    requires |p.done| < |p.w.nics| && n < |topo.nets|
  {
    p.(w := p.w.(nics := p.w.nics[|p.done| := (topo.nets[n].id, p.w.nics[|p.done|].1)]), starts := p.starts + [n])
  }

  /** The channel can start from NIC `n`. */
  predicate AllowedStart(topo: Topo, stock: Stock, q: Wish, p: Part, n: nat) {
    && n < |topo.nets| && StartRule(topo, q, p.w, |p.done|, n)
    && NicsAfford(topo, stock.nicBw, Truncated(q.bwInter) as real, p.starts)
    && NicAfter(topo, stock.nicBw, Truncated(q.bwInter) as real, p.starts)[n] >= Truncated(q.bwInter) as real
  }

  /** The NIC a solution starts from. */
  lemma StartNext(topo: Topo, stock: Stock, aim: Aim, sol: Sol, p: Part) returns (n: nat)
    requires Fits(topo, stock, aim, sol) && Continues(topo, sol, p) && topo.nets != [] && |p.starts| == |p.done| && !p.back && p.cur == []
    ensures n in topo.allNets && |p.done| < |p.w.nics| && AllowedStart(topo, stock, aim.q, p, n) && Continues(topo, sol, Started(topo, p, n))
  {
    hide Route, Legs, AfterAll, LengthAll, ValidTopo, RowOk, Truncated, NicAfter;
    var c := |p.done|;
    FitsChannel(topo, stock, aim, sol, c);
    n := sol.starts[c];
    assert sol.starts[..c] == p.starts;
    AffordLess(topo, stock.nicBw, Truncated(aim.q.bwInter) as real, sol.starts, c);
    assert StartRule(topo, aim.q, WrittenOf(sol.g), c, n);
  }

  lemma AffordLess(topo: Topo, avail: seq<real>, bw: real, starts: seq<nat>, c: nat)
    requires NicsAfford(topo, avail, bw, starts) && c < |starts|
    ensures NicsAfford(topo, avail, bw, starts[..c]) && NicAfter(topo, avail, bw, starts[..c])[starts[c]] >= bw
  {
    var less := starts[..c];
    forall k | 0 <= k < c ensures less[k] < |topo.nets| && NicAfter(topo, avail, bw, less[..k])[less[k]] >= bw {
      assert less[..k] == starts[..k];
    }
  }

  /** All NICs a channel may start from have been tried. */
  lemma StartsBeaten(topo: Topo, stock: Stock, aim: Aim, best: Graph, p: Part, order: seq<nat>)
    requires topo.nets != [] && |p.starts| == |p.done| < |p.w.nics| && !p.back && p.cur == []
    requires forall n: nat :: n in topo.allNets ==> n in order
    requires forall k :: 0 <= k < |order| && order[k] < |topo.nets| && AllowedStart(topo, stock, aim.q, p, order[k]) ==>
      Beaten(topo, stock, aim, best, ANY, Started(topo, p, order[k]))
    ensures Beaten(topo, stock, aim, best, ANY, p)
  {
    hide Fits, Continues, Better, SomeWay, AllowedStart;
    forall sol: Sol | Fits(topo, stock, aim, sol) && Continues(topo, sol, p) && SomeWay(topo, sol, |p.done|, ANY)
      ensures !Better(topo, sol.g, best)
    {
      var n := StartNext(topo, stock, aim, sol, p);
      AllowedIsNet(topo, stock, aim.q, p, n);
      var k :| 0 <= k < |order| && order[k] == n;
      BeatenBy(topo, stock, aim, best, ANY, Started(topo, p, n), sol);
    }
  }

  lemma AllowedIsNet(topo: Topo, stock: Stock, q: Wish, p: Part, n: nat)
    requires AllowedStart(topo, stock, q, p, n)
    ensures n < |topo.nets|
  {
  }

  // ---------------------------------------------------------------- parts of a search

  /** The first `step` GPUs of channel `c`. */
  function Ranks(w: Written, c: nat, step: nat): seq<int> { if c < |w.rows| && step <= |w.rows[c]| then w.rows[c][..step] else [] }

  /** ... and GPU `g` behind them. */
  function RanksTo(topo: Topo, w: Written, c: nat, step: nat, g: nat): seq<int> {
    Ranks(w, c, step) + if g < |topo.gpus| then [topo.gpus[g]] else []
  }

  lemma RanksKept(topo: Topo, a: Written, b: Written, c: nat, step: nat, back: bool, g: nat)
    requires Kept(a, b, c, step, back)
    ensures Ranks(b, c, step) == Ranks(a, c, step) && RanksTo(topo, b, c, step, g) == RanksTo(topo, a, c, step, g)
  {
    if c < |a.rows| && step <= |a.rows[c]| { assert b.rows[c][..step] == a.rows[c][..step]; }
  }

  /** A hop that cannot be taken. */
  lemma HopLacks(topo: Topo, stock: Stock, q: Wish, linkBw: seq<real>, nHops: int, netBw: seq<real>, done: seq<seq<Hop>>, cur: seq<Hop>, starts: seq<nat>, h: Hop)
    requires ValidTopo(topo) && Accounted(topo, stock, q, linkBw, nHops, netBw, done, cur, starts)
    requires var path := topo.path(h.a, h.b);
      PathOk(topo, path) && !(Near(topo, q, h) && NonNeg(Charged(topo, linkBw, h.a, path, |path.links|, HopCost(q, h))))
    ensures Lacks(topo, stock, q, done, cur, h)
  {
    hide ValidTopo, NonNeg, Near, Charged, HopCost, After, AfterAll, Length, LengthAll, NicsAfford, NicAfter;
    AfterMore(topo, q, AfterAll(topo, q, stock.bw, done), cur, h);
  }

  lemma AccountedHops(topo: Topo, stock: Stock, q: Wish, linkBw: seq<real>, nHops: int, netBw: seq<real>, done: seq<seq<Hop>>, starts: seq<nat>)
    requires ValidTopo(topo) && Accounted(topo, stock, q, linkBw, nHops, netBw, done, [], starts)
    ensures nHops == stock.hops + LengthAll(topo, done)
  {
    hide ValidTopo, After, AfterAll, LengthAll, NicsAfford, NicAfter;
  }

  /** NICs tried so far, of those the channel may return to. */
  ghost predicate NicsTried(topo: Topo, stock: Stock, aim: Aim, best: Graph, orders: set<Order>, p: Part, gpu: nat, nets: seq<nat>, i: nat) {
    |p.done| < |p.w.nics| && forall k :: 0 <= k < i && k < |nets| && AllowedNic(topo, aim.q, p, nets[k]) ==>
      Beaten(topo, stock, aim, best, orders, Returned(topo, p, gpu, nets[k]))
  }

  lemma NicsTriedNext(topo: Topo, stock: Stock, aim: Aim, a: Graph, b: Graph, orders: set<Order>, p: Part, gpu: nat, nets: seq<nat>, i: nat)
    requires i < |nets| && NicsTried(topo, stock, aim, a, orders, p, gpu, nets, i) && NotWorse(aim.q.pattern, a, b)
    requires AllowedNic(topo, aim.q, p, nets[i]) ==> Beaten(topo, stock, aim, b, orders, Returned(topo, p, gpu, nets[i]))
    ensures NicsTried(topo, stock, aim, b, orders, p, gpu, nets, i + 1)
  {
    hide Beaten, NotWorse, Returned, ReturnRule;
    forall k | 0 <= k < i + 1 && k < |nets| && AllowedNic(topo, aim.q, p, nets[k])
      ensures Beaten(topo, stock, aim, b, orders, Returned(topo, p, gpu, nets[k]))
    {
      if k < i { BeatenStays(topo, stock, aim, a, b, orders, Returned(topo, p, gpu, nets[k])); }
    }
  }

  /** A NIC that is skipped is not allowed, whatever has been written behind the GPUs so far. */
  lemma SkippedNic(topo: Topo, g: Graph, p: Part, step: nat, n: nat, start: nat)
    requires n < |topo.nets| && g.nChannels < |g.inter| && IsFirst(topo, start, g.inter[g.nChannels].0) && |topo.gpus| >= 1
    requires ReturnsAt(topo, g.pattern, step) && SkipsNic(topo, g, step, n, start)
    requires |p.done| == g.nChannels && p.back == Been(topo, g.pattern, step) && Kept(p.w, WrittenOf(g), g.nChannels, step, p.back)
    ensures !AllowedNic(topo, WishOf(g), p, n)
  {
    BackFacts(topo, g.pattern, step);
    FirstIsOne(topo, start, g.inter[g.nChannels].0);
  }

  lemma FirstIsOne(topo: Topo, start: nat, id: int)
    requires IsFirst(topo, start, id)
    ensures forall s: nat :: IsFirst(topo, s, id) ==> s == start
  {
  }

  /** NICs tried so far, of those the channel may start from. */
  ghost predicate StartsTried(topo: Topo, stock: Stock, aim: Aim, best: Graph, p: Part, order: seq<nat>, i: nat) {
    |p.done| < |p.w.nics| && forall k :: 0 <= k < i && k < |order| && AllowedStart(topo, stock, aim.q, p, order[k]) ==>
      Beaten(topo, stock, aim, best, ANY, Started(topo, p, order[k]))
  }

  lemma StartsTriedNext(topo: Topo, stock: Stock, aim: Aim, a: Graph, b: Graph, p: Part, order: seq<nat>, i: nat)
    requires i < |order| && StartsTried(topo, stock, aim, a, p, order, i) && NotWorse(aim.q.pattern, a, b)
    requires AllowedStart(topo, stock, aim.q, p, order[i]) ==> Beaten(topo, stock, aim, b, ANY, Started(topo, p, order[i]))
    ensures StartsTried(topo, stock, aim, b, p, order, i + 1)
  {
    hide Beaten, NotWorse, Started, NicsAfford, NicAfter, StartRule, Truncated;
    forall k | 0 <= k < i + 1 && k < |order| && AllowedStart(topo, stock, aim.q, p, order[k])
      ensures Beaten(topo, stock, aim, b, ANY, Started(topo, p, order[k]))
    {
      if k < i { BeatenStays(topo, stock, aim, a, b, ANY, Started(topo, p, order[k])); }
    }
  }

  /** What was written for the channel before it starts does not matter. */
  lemma StartedKept(topo: Topo, stock: Stock, aim: Aim, best: Graph, p: Part, b: Written, n: nat)
    requires |p.done| < |p.w.nics| == |p.w.rows| && n < |topo.nets| && !p.back && Below(p.w, b, |p.done|)
    requires |b.rows[|p.done|]| == |p.w.rows[|p.done|]|
    ensures |p.done| < |b.nics|
    ensures Beaten(topo, stock, aim, best, ANY, Started(topo, p.(w := b), n)) <==> Beaten(topo, stock, aim, best, ANY, Started(topo, p, n))
  {
    hide Beaten;
    var here := Started(topo, p, n);
    var there := Started(topo, p.(w := b), n).w;
    BeatenKept(topo, stock, aim, best, ANY, here, there, 0);
  }

  /** The NICs in turn, from the c-th on. */
  function Rotation(nets: seq<nat>, c: nat): (order: seq<nat>)
    ensures |order| == |nets|
  {
    seq(|nets|, i requires 0 <= i < |nets| => nets[(c + i) % |nets|])
  }

  lemma RotationHas(nets: seq<nat>, c: nat, n: nat)
    requires n in nets
    ensures n in Rotation(nets, c)
  {
    var j :| 0 <= j < |nets| && nets[j] == n;
    var i := TurnTo(c, |nets|, j);
    assert Rotation(nets, c)[i] == n;
  }

  lemma TurnTo(c: nat, m: nat, j: nat) returns (i: nat)
    requires j < m
    ensures i < m && (c + i) % m == j
  {
    DivModFacts(c, m);
    var r, q := c % m, c / m;
    i := if j >= r then j - r else j - r + m;
    if j >= r { DivUnique(c + i, m, q, j); } else {
      assert (q + 1) * m == q * m + m;
      DivUnique(c + i, m, q + 1, j);
    }
  }

  /** The GPUs in turn, from the c-th on. */
  function GpuRotation(m: nat, c: nat): (order: seq<nat>)
    ensures |order| == m
  {
    seq(m, i requires 0 <= i < m => (c + i) % m)
  }

  lemma GpuRotationHas(m: nat, c: nat, g: nat)
    requires g < m
    ensures g in GpuRotation(m, c)
  {
    var i := TurnTo(c, m, g);
    assert GpuRotation(m, c)[i] == g;
  }
}
