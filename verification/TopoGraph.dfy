/**
 The graph that the channel search works on (ncclTopoGraph of src/graph/search.cc), how graphs compare,
 and what holds while a channel is being built.
 Channel rows are kept as a sequence of rows instead of one flattened array.
 */
module TopoGraph {
  import opened Arith
  import opened TopoLinks

  datatype Pattern = BalancedTree | SplitTree | Tree | Ring | Nvls

  /** ncclTopoGraph: what is searched for, and the channels chosen so far. */
  datatype Graph = Graph(pattern: Pattern, crossNic: int, collNet: bool, sameChannels: bool, minChannels: int, maxChannels: nat,
                         bwIntra: real, bwInter: real, typeIntra: int, typeInter: int, nChannels: nat, nHops: int,
                         latencyInter: real, intra: seq<seq<int>>, inter: seq<(int, int)>)

  /** In which order GPUs are tried: by score, by index, or as in the previous channel. */
  datatype Order = Free | Pci | Replay

  predicate Distinct(s: seq<int>) { forall i, j :: 0 <= i < j < |s| ==> s[i] != s[j] }

  /** A complete channel: every position holds the rank of a GPU, no two the same. */
  predicate RowOk(topo: Topo, row: seq<int>) {
    |row| == |topo.gpus| && Distinct(row) && forall k :: 0 <= k < |row| ==> row[k] in topo.gpus
  }

  /** The first `n` rows are complete channels. */
  predicate RowsDone(topo: Topo, rows: seq<seq<int>>, n: nat) {
    n <= |rows| && forall c :: 0 <= c < n ==> RowOk(topo, rows[c])
  }

  /** For any pattern but NVLS, whose rows only name the head of each channel. */
  predicate RowsOk(topo: Topo, g: Graph) { !g.pattern.Nvls? ==> RowsDone(topo, g.intra, g.nChannels) }

  predicate GraphOk(topo: Topo, g: Graph) {
    && |g.intra| == |g.inter| == g.maxChannels && g.nChannels <= g.maxChannels
    && (forall c :: 0 <= c < g.maxChannels ==> |g.intra[c]| == |topo.gpus|)
    && g.bwIntra >= 0.0 && g.bwInter >= 0.0
    && (g.pattern.Nvls? ==> g.maxChannels <= |topo.gpus|)
  }

  /** The graph without its rows, its NICs and its latency: what the search has to restore. */
  function Bare(g: Graph): Graph { g.(intra := [], inter := [], latencyInter := 0.0) }

  /** What the search has written: rows, and the NICs each channel leaves from and returns to. */
  datatype Written = Written(rows: seq<seq<int>>, nics: seq<(int, int)>)

  /** What is searched for: the parameters of a graph that the search does not change. */
  datatype Wish = Wish(pattern: Pattern, crossNic: int, collNet: bool, sameChannels: bool, bwIntra: real, bwInter: real,
                       typeIntra: int, typeInter: int)

  function WishOf(g: Graph): Wish {
    Wish(g.pattern, g.crossNic, g.collNet, g.sameChannels, g.bwIntra, g.bwInter, g.typeIntra, g.typeInter)
  }

  function WrittenOf(g: Graph): Written { Written(g.intra, g.inter) }

  /** Channels below `c` are as they were. */
  predicate Below(a: Written, b: Written, c: nat) {
    && |b.rows| == |a.rows| && |b.nics| == |a.nics|
    && (forall k :: 0 <= k < c && k < |a.rows| ==> b.rows[k] == a.rows[k])
    && (forall k :: 0 <= k < c && k < |a.nics| ==> b.nics[k] == a.nics[k])
  }

  /** ... and so is channel `c` up to position `step`, with the NIC it started from and, if it has been back, the one it returned to. */
  predicate Kept(a: Written, b: Written, c: nat, step: nat, back: bool) {
    && Below(a, b, c)
    && (c < |a.rows| ==> SameRow(a.rows[c], b.rows[c], step))
    && (c < |a.nics| ==> b.nics[c].0 == a.nics[c].0 && (back ==> b.nics[c].1 == a.nics[c].1))
  }

  predicate SameRow(a: seq<int>, b: seq<int>, step: nat) {
    |b| == |a| && forall k :: 0 <= k < step && k < |a| ==> b[k] == a[k]
  }

  function Toggle(s: set<nat>, c: nat): set<nat> { if c in s then s - {c} else s + {c} }

  /** ncclTopoCompareGraphs: is `g` worth keeping instead of `best`? */
  predicate Better(topo: Topo, g: Graph, best: Graph) {
    if g.nChannels < g.minChannels then false
    else if g.pattern.Nvls? then
      (g.nChannels > best.nChannels && g.nChannels <= |topo.gpus|) ||
      g.nChannels as real * g.bwInter > best.nChannels as real * best.bwInter
    else if Total(g) > Total(best) then true
    else if Total(g) < Total(best) then false
    else g.pattern == best.pattern && g.crossNic == best.crossNic && g.nHops < best.nHops
  }

  /** The bandwidth of all channels together. */
  function Total(g: Graph): real { g.nChannels as real * g.bwIntra }

  /** ... and of all channels wanted. */
  function Wanted(channels: nat, bw: real): real { channels as real * bw }

  lemma AllWanted(g: Graph)
    ensures g.nChannels == g.maxChannels ==> Total(g) == Wanted(g.maxChannels, g.bwIntra)
  {
  }

  /** What is kept only changes for more bandwidth, or as much over fewer hops. The NVLS comparison is no order. */
  predicate NotWorse(p: Pattern, a: Graph, b: Graph) {
    || p.Nvls? || b == a || Total(b) > Total(a)
    || (Total(b) == Total(a) && b.pattern == a.pattern && b.crossNic == a.crossNic && b.nHops < a.nHops)
  }

  /** A graph that was kept, or was not good enough before, stays beaten. */
  lemma StaysBeaten(topo: Topo, g: Graph, a: Graph, b: Graph)
    requires !g.pattern.Nvls? && NotWorse(g.pattern, a, b) && (a == g || !Better(topo, g, a))
    ensures !Better(topo, g, b)
  {
    hide Total;
  }

  lemma KeptIsNotWorse(topo: Topo, g: Graph, a: Graph)
    requires Better(topo, g, a)
    ensures NotWorse(g.pattern, a, g) && g.nChannels >= g.minChannels
  {
    hide Total;
  }

  /** A graph is better exactly if it has enough channels and replacing the other by it makes things no worse. */
  lemma BetterIff(topo: Topo, g: Graph, a: Graph)
    requires !g.pattern.Nvls?
    ensures Better(topo, g, a) <==> g.nChannels >= g.minChannels && g != a && NotWorse(g.pattern, a, g)
  {
    hide Total;
  }

  /** Except for NVLS the comparison is a strict order. */
  lemma BetterIsOrder(topo: Topo, f: Graph, g: Graph, h: Graph)
    requires !f.pattern.Nvls? && !g.pattern.Nvls?
    ensures !Better(topo, f, f)
    ensures Better(topo, f, g) && Better(topo, g, h) ==> Better(topo, f, h)
  {
    hide Total;
  }

  /** Two NVLS graphs can each be better than the other: exactly if one has more channels, for which there are GPUs, and the other more bandwidth. */
  lemma NvlsBothBetterIff(topo: Topo, g: Graph, h: Graph)
    requires g.pattern.Nvls? && h.pattern.Nvls?
    ensures Better(topo, g, h) && Better(topo, h, g) <==>
      && g.nChannels >= g.minChannels && h.nChannels >= h.minChannels
      && (MoreButSlower(topo, g, h) || MoreButSlower(topo, h, g))
  {
  }

  predicate MoreButSlower(topo: Topo, g: Graph, h: Graph) {
    h.nChannels < g.nChannels <= |topo.gpus| && g.nChannels as real * g.bwInter < h.nChannels as real * h.bwInter
  }

  lemma Unchanged(p: Pattern, a: Graph)
    ensures NotWorse(p, a, a)
  {
  }

  lemma NotWorseThrough(p: Pattern, a: Graph, b: Graph, c: Graph)
    requires NotWorse(p, a, b) && NotWorse(p, b, c)
    ensures NotWorse(p, a, c) && (p.Nvls? || Total(c) >= Total(b) >= Total(a))
  {
    hide Total;
  }

  /** The NICs the way back does not try: another one for a tree, another port or an odd channel's wrong one when not crossing. */
  predicate SkipsNic(topo: Topo, g: Graph, step: nat, n: nat, start: nat)
    requires n < |topo.nets| && start < |topo.nets| && g.nChannels < |g.inter|
  {
    var net, startNet := topo.nets[n], topo.nets[start];
    || (g.pattern.Tree? && net.id != startNet.id)
    || (g.crossNic != 1 && (net.asic != startNet.asic || net.port != startNet.port))
    || (g.crossNic != 0 && g.nChannels % 2 == 1 && net.id != g.inter[g.nChannels - 1].0)
    || (g.pattern.BalancedTree? && step != 0 && net.id != g.inter[g.nChannels].1)
  }

  /** A balanced tree counts half of the network bandwidth on each of the first two GPUs. */
  function Halved(g: Graph): real { if g.pattern.BalancedTree? then g.bwInter / 2.0 else g.bwInter }

  lemma SameHalf(g: Graph, h: Graph)
    requires g.pattern == h.pattern && g.bwInter == h.bwInter
    ensures Halved(g) == Halved(h)
  {
  }

  /** ncclTopoSearchParams: at which position to go back to the NIC, or to the first GPU. */
  function BackToNet(topo: Topo, p: Pattern): int {
    if topo.nets == [] then -1 else if p.Ring? then |topo.gpus| - 1 else if p.SplitTree? then 1 else 0
  }

  function BackToFirst(topo: Topo, p: Pattern): int {
    if topo.nets == [] && p.Ring? then |topo.gpus| - 1 else -1
  }

  /** A float converted to int. */
  function Truncated(x: real): int { if x >= 0.0 then x.Floor else -((-x).Floor) }

  /** A NIC shares its bandwidth with every NIC of the same ASIC and port. */
  function TakeFrom(topo: Topo, avail: seq<real>, n: nat, bw: real): (left: seq<real>)
    requires |avail| == |topo.nets| && n < |topo.nets|
    ensures |left| == |avail|
  {
    seq(|avail|, i requires 0 <= i < |avail| =>
      if topo.nets[i].asic == topo.nets[n].asic && topo.nets[i].port == topo.nets[n].port then avail[i] - bw else avail[i])
  }

  // ---------------------------------------------------------------- what holds while a channel is being built

  /** No GPU is marked for channel `c` or a later one. */
  ghost predicate Fresh(used: seq<set<nat>>, c: nat) {
    forall g, d: nat :: 0 <= g < |used| && d >= c ==> d !in used[g]
  }

  /** GPU `h` is among the first `step` of row `c`. */
  predicate InRow(topo: Topo, rows: seq<seq<int>>, c: nat, step: nat, h: nat) {
    c < |rows| && step <= |rows[c]| && h < |topo.gpus| && exists k :: 0 <= k < step && rows[c][k] == topo.gpus[h]
  }

  /** The first `step` entries of row `c` are ranks of GPUs, all different. */
  predicate StartsRow(topo: Topo, rows: seq<seq<int>>, c: nat, step: nat) {
    && c < |rows| && step <= |rows[c]|
    && (forall k :: 0 <= k < step ==> rows[c][k] in topo.gpus)
    && (forall i, j :: 0 <= i < j < step ==> rows[c][i] != rows[c][j])
  }

  /** The first `step` GPUs of channel `c` are chosen; exactly they are marked. */
  ghost predicate Prefix(topo: Topo, rows: seq<seq<int>>, used: seq<set<nat>>, c: nat, step: nat) {
    && StartsRow(topo, rows, c, step) && |used| == |topo.gpus|
    && forall h :: 0 <= h < |used| ==> (c in used[h] <==> InRow(topo, rows, c, step, h))
  }

  /** GPU `g` has just been chosen, and marked, for position `step`. */
  ghost predicate OnPath(topo: Topo, rows: seq<seq<int>>, used: seq<set<nat>>, c: nat, g: nat, step: nat) {
    && StartsRow(topo, rows, c, step) && |used| == |topo.gpus| && g < |topo.gpus|
    && !InRow(topo, rows, c, step, g)
    && forall h :: 0 <= h < |used| ==> (c in used[h] <==> h == g || InRow(topo, rows, c, step, h))
  }

  /** A forced order follows the indices, or the previous channel. */
  ghost predicate Follows(topo: Topo, order: Order, rows: seq<seq<int>>, c: nat, g: nat, step: nat) {
    && c < |rows| && step < |rows[c]| && g < |topo.gpus|
    && (order.Pci? ==> g == step && SameStart(rows[c], topo.gpus, step))
    && (order.Replay? ==> c >= 1 && step < |rows[c - 1]| && SameStart(rows[c], rows[c - 1], step) && topo.gpus[g] == rows[c - 1][step])
  }

  /** A GPU with a path from this one that is not in the channel yet. */
  predicate CanFollow(topo: Topo, used: seq<set<nat>>, c: nat, gpu: nat, g: nat) {
    g < |topo.gpus| && g < |used| && g != gpu && topo.path(AtGpu(gpu), AtGpu(g)).links != [] && c !in used[g]
  }

  /** The GPUs that NVSwitch systems try: the next one, and for patterns with two directions the previous one. */
  predicate Neighbour(topo: Topo, p: Pattern, gpu: nat, g: nat)
    requires |topo.gpus| >= 1
  {
    || g == (gpu + 1) % |topo.gpus|
    || ((p.Ring? || p.SplitTree? || p.BalancedTree?) && g == (gpu - 1 + |topo.gpus|) % |topo.gpus|)
  }

  function Distance(n: nat, gpu: nat, g: nat): int { if g >= gpu then g - gpu else g - gpu + n }

  lemma DistanceAt(n: nat, gpu: nat, i: nat)
    requires gpu < n && 1 <= i < n
    ensures (gpu + i) % n < n && (gpu + i) % n != gpu && Distance(n, gpu, (gpu + i) % n) == i
    ensures forall g: nat :: g < n && Distance(n, gpu, g) == i ==> g == (gpu + i) % n
  {
    DivUnique(gpu + i, n, if gpu + i < n then 0 else 1, if gpu + i < n then gpu + i else gpu + i - n);
  }

  lemma DistanceRange(n: nat, gpu: nat, g: nat)
    requires gpu < n && g < n && g != gpu
    ensures 1 <= Distance(n, gpu, g) < n
  {
  }

  predicate SameStart(a: seq<int>, b: seq<int>, step: nat) {
    step <= |a| && step <= |b| && forall k :: 0 <= k < step ==> a[k] == b[k]
  }

  predicate IsNet(topo: Topo, id: int) { exists n :: 0 <= n < |topo.nets| && topo.nets[n].id == id }

  lemma Marked(topo: Topo, rows: seq<seq<int>>, used: seq<set<nat>>, c: nat, gpu: nat, step: nat)
    requires |used| == |topo.gpus| && gpu < |topo.gpus|
    ensures Prefix(topo, rows, used, c, step) && !InRow(topo, rows, c, step, gpu)
      ==> OnPath(topo, rows, used[gpu := Toggle(used[gpu], c)], c, gpu, step)
  {
    hide InRow;
  }

  lemma ToggleTwice(used: seq<set<nat>>, g: nat, c: nat)
    requires g < |used|
    ensures var once := used[g := Toggle(used[g], c)]; once[g := Toggle(once[g], c)] == used
  {
    assert Toggle(Toggle(used[g], c), c) == used[g];
  }

  lemma KeptRefl(w: Written, c: nat, step: nat, back: bool)
    ensures Kept(w, w, c, step, back)
  {
  }

  lemma FirstInRow(topo: Topo, row: seq<int>)
    requires RowOk(topo, row) && |topo.gpus| >= 1
    ensures row[0] in topo.gpus
  {
  }

  /** Nothing a channel relies on has changed. */
  lemma KeptFacts(topo: Topo, a: Written, b: Written, used: seq<set<nat>>, c: nat, step: nat, back: bool, g: nat, order: Order)
    requires Kept(a, b, c, step, back) && |a.rows| == |a.nics|
    ensures RowsDone(topo, a.rows, c) ==> RowsDone(topo, b.rows, c)
    ensures Prefix(topo, a.rows, used, c, step) ==> Prefix(topo, b.rows, used, c, step)
    ensures Follows(topo, order, a.rows, c, g, step) ==> Follows(topo, order, b.rows, c, g, step)
    ensures !InRow(topo, a.rows, c, step, g) ==> !InRow(topo, b.rows, c, step, g)
  {
    if c < |a.rows| {
      forall h: nat ensures InRow(topo, a.rows, c, step, h) <==> InRow(topo, b.rows, c, step, h) {
        InRowSame(topo, a.rows, b.rows, c, step, h);
      }
    }
    hide InRow, IsNet;
  }

  lemma UnusedNotInRow(topo: Topo, rows: seq<seq<int>>, used: seq<set<nat>>, c: nat, step: nat, g: nat)
    requires Prefix(topo, rows, used, c, step) && g < |topo.gpus| && c !in used[g] && step < |rows[c]|
    ensures !InRow(topo, rows, c, step, g) && Follows(topo, Free, rows, c, g, step)
  {
    hide InRow;
  }

  lemma FollowPci(topo: Topo, rows: seq<seq<int>>, c: nat, g: nat, step: nat)
    requires ValidTopo(topo) && Follows(topo, Pci, rows, c, g, step) && rows[c][step] == topo.gpus[g]
    requires step + 1 < |topo.gpus| == |rows[c]|
    ensures !InRow(topo, rows, c, step + 1, step + 1) && Follows(topo, Pci, rows, c, step + 1, step + 1)
  {
  }

  lemma PreviousRow(topo: Topo, rows: seq<seq<int>>, used: seq<set<nat>>, c: nat, g: nat, step: nat)
    requires Follows(topo, Replay, rows, c, g, step) && RowsDone(topo, rows, c) && step + 1 < |topo.gpus|
    ensures c >= 1 && |rows[c - 1]| == |topo.gpus| && rows[c - 1][step + 1] in topo.gpus
  {
  }

  lemma FollowReplay(topo: Topo, rows: seq<seq<int>>, c: nat, g: nat, h: nat, step: nat)
    requires Follows(topo, Replay, rows, c, g, step) && RowsDone(topo, rows, c) && rows[c][step] == topo.gpus[g]
    requires step + 1 < |topo.gpus| == |rows[c]| && h < |topo.gpus| && topo.gpus[h] == rows[c - 1][step + 1]
    ensures !InRow(topo, rows, c, step + 1, h) && Follows(topo, Replay, rows, c, h, step + 1)
  {
  }

  lemma NetsOfGpu(topo: Topo, g: nat)
    requires ValidTopo(topo) && g < |topo.gpus|
    ensures g < |topo.gpuNets| && NetsOk(topo, topo.gpuNets[g])
  {
  }

  lemma KeptOnPath(topo: Topo, a: Written, b: Written, used: seq<set<nat>>, c: nat, step: nat, back: bool, g: nat)
    requires Kept(a, b, c, step, back)
    ensures OnPath(topo, a.rows, used, c, g, step) ==> OnPath(topo, b.rows, used, c, g, step)
  {
    if c < |a.rows| {
      forall h: nat ensures InRow(topo, a.rows, c, step, h) <==> InRow(topo, b.rows, c, step, h) {
        InRowSame(topo, a.rows, b.rows, c, step, h);
      }
    }
    hide InRow;
  }

  lemma NicIsKept(w: Written, c: nat, step: nat, back: bool, id: int)
    requires c < |w.nics| && (back ==> w.nics[c].1 == id)
    ensures Kept(w, w.(nics := w.nics[c := (w.nics[c].0, id)]), c, step, back)
  {
  }

  lemma BelowRefl(w: Written, c: nat)
    ensures Below(w, w, c)
  {
  }

  lemma BelowTrans(a: Written, b: Written, d: Written, c: nat)
    requires Below(a, b, c) && Below(b, d, c)
    ensures Below(a, d, c)
  {
  }

  lemma BelowFacts(topo: Topo, a: Written, b: Written, c: nat)
    requires Below(a, b, c)
    ensures RowsDone(topo, a.rows, c) ==> RowsDone(topo, b.rows, c)
  {
  }

  /** Nothing is chosen yet for a channel that no GPU is marked for. */
  lemma EmptyPrefix(topo: Topo, rows: seq<seq<int>>, used: seq<set<nat>>, c: nat, g: nat)
    requires Fresh(used, c) && c < |rows| && |used| == |topo.gpus|
    ensures Prefix(topo, rows, used, c, 0) && !InRow(topo, rows, c, 0, g)
  {
  }

  lemma FreshMono(used: seq<set<nat>>, c: nat)
    requires Fresh(used, c)
    ensures Fresh(used, c + 1)
  {
  }

  lemma NicIsBelow(w: Written, c: nat, id: int)
    requires c < |w.nics|
    ensures Below(w, w.(nics := w.nics[c := (id, w.nics[c].1)]), c)
  {
  }

  lemma NicGivenBack(topo: Topo, avail: seq<real>, n: nat, bw: real)
    requires |avail| == |topo.nets| && n < |topo.nets|
    ensures TakeFrom(topo, TakeFrom(topo, avail, n, bw), n, -bw) == avail
  {
  }

  lemma BelowIsKept(a: Written, b: Written, c: nat, step: nat, back: bool)
    requires Below(a, b, c + 1)
    ensures Kept(a, b, c, step, back)
  {
  }

  lemma KeptLess(a: Written, b: Written, c: nat, step: nat, back: bool, less: nat, back': bool)
    requires Kept(a, b, c, step, back) && less <= step && (back' ==> back)
    ensures Kept(a, b, c, less, back')
  {
  }

  lemma KeptTrans(a: Written, b: Written, d: Written, c: nat, step: nat, back: bool)
    requires Kept(a, b, c, step, back) && Kept(b, d, c, step, back)
    ensures Kept(a, d, c, step, back)
  {
  }

  lemma PutIsKept(w: Written, c: nat, step: nat, back: bool, rank: int)
    requires c < |w.rows| && step < |w.rows[c]|
    ensures Kept(w, w.(rows := w.rows[c := w.rows[c][step := rank]]), c, step, back)
  {
  }

  lemma InRowSame(topo: Topo, rows: seq<seq<int>>, rows': seq<seq<int>>, c: nat, step: nat, h: nat)
    requires c < |rows| == |rows'| && SameRow(rows[c], rows'[c], step)
    ensures InRow(topo, rows, c, step, h) <==> InRow(topo, rows', c, step, h)
  {
  }

  /** Writing the GPU just chosen into the row. */
  lemma PutKeeps(topo: Topo, g: Graph, used: seq<set<nat>>, c: nat, gpu: nat, step: nat, order: Order)
    requires ValidTopo(topo) && GraphOk(topo, g) && c < g.maxChannels && c == g.nChannels && gpu < |topo.gpus| && step < |topo.gpus|
    ensures var rows := g.intra[c := g.intra[c][step := topo.gpus[gpu]]];
      && GraphOk(topo, g.(intra := rows))
      && (RowsDone(topo, g.intra, c) ==> RowsDone(topo, rows, c))
      && (Follows(topo, order, g.intra, c, gpu, step) ==> Follows(topo, order, rows, c, gpu, step))
      && (OnPath(topo, g.intra, used, c, gpu, step) ==>
            OnPath(topo, rows, used, c, gpu, step) && Prefix(topo, rows, used, c, step + 1))
  {
    var rows := g.intra[c := g.intra[c][step := topo.gpus[gpu]]];
    if OnPath(topo, g.intra, used, c, gpu, step) {
      forall h | 0 <= h < |used|
        ensures InRow(topo, rows, c, step, h) <==> InRow(topo, g.intra, c, step, h)
        ensures InRow(topo, rows, c, step + 1, h) <==> h == gpu || InRow(topo, g.intra, c, step, h)
      {
        InRowSame(topo, g.intra, rows, c, step, h);
        if h == gpu { assert rows[c][step] == topo.gpus[h]; }
      }
      forall k | 0 <= k < step ensures rows[c][k] != topo.gpus[gpu] {
        assert rows[c][k] == g.intra[c][k];
      }
    }
  }

  lemma RowIsDone(topo: Topo, rows: seq<seq<int>>, used: seq<set<nat>>, c: nat)
    requires Prefix(topo, rows, used, c, |topo.gpus|) && |rows[c]| == |topo.gpus|
    ensures RowOk(topo, rows[c])
  {
  }

  lemma PathIsOk(topo: Topo, a: End, b: End)
    requires ValidTopo(topo)
    ensures PathOk(topo, topo.path(a, b))
  {
  }

  // ---------------------------------------------------------------- complete rows

  /** A sequence of distinct values drawn from another one of the same length is a rearrangement of it. */
  lemma {:induction false} DistinctIsPermutation(a: seq<int>, b: seq<int>)
    requires Distinct(a) && |b| <= |a| && forall k :: 0 <= k < |a| ==> a[k] in b
    ensures multiset(a) == multiset(b)
  {
    if |a| > 0 {
      var x := a[|a| - 1];
      var j :| 0 <= j < |b| && b[j] == x;
      var a', b' := a[..|a| - 1], b[..j] + b[j + 1..];
      forall k | 0 <= k < |a'| ensures a'[k] in b' {
        assert a[k] in b && a[k] != x;
        var m :| 0 <= m < |b| && b[m] == a[k];
        assert b'[if m < j then m else m - 1] == a[k];
      }
      DistinctIsPermutation(a', b');
      assert a == a' + [x] && b == b[..j] + [x] + b[j + 1..];
    }
  }

  /** Every channel that is kept visits every GPU of the node exactly once. */
  lemma KeptRowsArePermutations(topo: Topo, g: Graph, c: nat)
    requires RowsOk(topo, g) && !g.pattern.Nvls? && c < g.nChannels
    ensures c < |g.intra| && multiset(g.intra[c]) == multiset(topo.gpus)
  {
    assert RowOk(topo, g.intra[c]);
    DistinctIsPermutation(g.intra[c], topo.gpus);
  }
}
