/**
 The topology of a node and the bandwidth bookkeeping of the graph search (src/graph/search.cc):
 following a path takes bandwidth from every link on it, and following it again with the opposite
 sign gives exactly that back. Bandwidths are reals: the rounding of SUB_ROUND is not modelled.
 */
module TopoLinks {
  datatype LinkKind = PciLink | NvLink | OtherLink

  /** What a link leads to, as far as bandwidth is concerned. */
  datatype Remote = Gpu(cudaCompCap: int) | Cpu(power: bool, x86Intel: bool) | OtherNode

  /** A directed link, and the link of the same kind in the other direction. */
  datatype Link = Link(kind: LinkKind, remote: Remote, reverse: nat)

  const PATH_PHB: int := 6

  datatype Path = Path(kind: int, links: seq<nat>, bw: real)

  /** Where a path starts or ends. */
  datatype End = Nowhere | AtGpu(index: nat) | AtNet(index: nat) | AtNvs

  datatype Net = Net(id: int, asic: int, port: int, latency: real, collSupport: bool)

  /**
   A node: its links, the rank of each GPU, its network interfaces, the paths between them, and the
   interfaces to try from each GPU or from anywhere (as ncclTopoSelectNets lists them).
   */
  datatype Topo = Topo(links: seq<Link>, gpus: seq<int>, nets: seq<Net>, nvs: nat, path: (End, End) -> Path,
                       allNets: seq<nat>, gpuNets: seq<seq<nat>>, localGpu: seq<int>)

  predicate IsEnd(topo: Topo, e: End) {
    match e
    case Nowhere => false
    case AtGpu(i) => i < |topo.gpus|
    case AtNet(i) => i < |topo.nets|
    case AtNvs => true
  }

  predicate PathOk(topo: Topo, p: Path) {
    forall k :: 0 <= k < |p.links| ==> p.links[k] < |topo.links|
  }

  ghost predicate ValidTopo(topo: Topo) {
    && (forall l :: 0 <= l < |topo.links| ==> topo.links[l].reverse < |topo.links| && topo.links[l].reverse != l)
    && (forall a, b :: PathOk(topo, topo.path(a, b)))
    && |topo.gpus| >= 1
    && (forall i, j :: 0 <= i < j < |topo.gpus| ==> topo.gpus[i] != topo.gpus[j])
    && (forall k :: 0 <= k < |topo.allNets| ==> topo.allNets[k] < |topo.nets|)
    && |topo.gpuNets| == |topo.gpus|
    && (forall g :: 0 <= g < |topo.gpus| ==> NetsOk(topo, topo.gpuNets[g]))
    && |topo.localGpu| == |topo.nets|
    && (forall n :: 0 <= n < |topo.nets| ==> -1 <= topo.localGpu[n] < |topo.gpus|)
  }

  predicate NetsOk(topo: Topo, nets: seq<nat>) { forall k :: 0 <= k < |nets| ==> nets[k] < |topo.nets| }

  // ---------------------------------------------------------------- what a path costs

  /** Some of the first `n` links lead to an Intel x86 CPU. */
  predicate ThroughIntel(topo: Topo, links: seq<nat>, n: nat)
    requires n <= |links| && forall k :: 0 <= k < |links| ==> links[k] < |topo.links|
  {
    exists k :: 0 <= k < n && topo.links[links[k]].remote.Cpu? && topo.links[links[k]].remote.x86Intel
  }

  /** Peer-to-peer traffic through an Intel host bridge costs a fifth more on PCI. */
  function PciCost(topo: Topo, start: End, p: Path, bw: real): real
    requires PathOk(topo, p)
  {
    if p.kind == PATH_PHB && start.AtGpu? && ThroughIntel(topo, p.links, |p.links|) then bw * 6.0 / 5.0 else bw
  }

  /** What one link costs in its own direction. */
  function Forward(topo: Topo, start: End, p: Path, k: nat, bw: real): real
    requires PathOk(topo, p) && k < |p.links|
  {
    if topo.links[p.links[k]].kind.PciLink? then PciCost(topo, start, p, bw) else bw
  }

  /** ... and in the other direction: reads by old GPUs, and NVLink to POWER CPUs. */
  function Backward(topo: Topo, start: End, p: Path, k: nat, bw: real): real
    requires PathOk(topo, p) && k < |p.links|
  {
    var link := topo.links[p.links[k]];
    var fw := Forward(topo, start, p, k, bw);
    (if link.remote.Gpu? && link.remote.cudaCompCap < 80 && !start.AtGpu? then fw / 8.0 else 0.0) +
    (if link.remote.Cpu? && link.remote.power && link.kind.NvLink? then fw else 0.0)
  }

  /** What the first `n` steps of a path take from link `l`. */
  function Taken(topo: Topo, start: End, p: Path, n: nat, bw: real, l: nat): real
    requires PathOk(topo, p) && n <= |p.links|
  {
    if n == 0 then 0.0
    else
      var here := p.links[n - 1];
      Taken(topo, start, p, n - 1, bw, l) + (if here == l then Forward(topo, start, p, n - 1, bw) else 0.0) +
      (if here < |topo.links| && topo.links[here].reverse == l then Backward(topo, start, p, n - 1, bw) else 0.0)
  }

  /** The bandwidth left on every link after the first `n` steps. */
  function Charged(topo: Topo, avail: seq<real>, start: End, p: Path, n: nat, bw: real): (left: seq<real>)
    requires PathOk(topo, p) && n <= |p.links|
    ensures |left| == |avail|
  {
    seq(|avail|, l requires 0 <= l < |avail| => avail[l] - Taken(topo, start, p, n, bw, l))
  }

  predicate NonNeg(avail: seq<real>) { forall l :: 0 <= l < |avail| ==> avail[l] >= 0.0 }

  lemma CostNegates(topo: Topo, start: End, p: Path, k: nat, bw: real)
    requires PathOk(topo, p) && k < |p.links|
    ensures Forward(topo, start, p, k, -bw) == -Forward(topo, start, p, k, bw)
    ensures Backward(topo, start, p, k, -bw) == -Backward(topo, start, p, k, bw)
    ensures bw >= 0.0 ==> Forward(topo, start, p, k, bw) >= 0.0 && Backward(topo, start, p, k, bw) >= 0.0
  {
    hide ThroughIntel;
  }

  lemma {:induction false} TakenNegates(topo: Topo, start: End, p: Path, n: nat, bw: real, l: nat)
    requires PathOk(topo, p) && n <= |p.links|
    ensures Taken(topo, start, p, n, -bw, l) == -Taken(topo, start, p, n, bw, l)
  {
    hide Forward, Backward;
    if n > 0 {
      TakenNegates(topo, start, p, n - 1, bw, l);
      CostNegates(topo, start, p, n - 1, bw);
    }
  }

  /** Following a path backwards gives back exactly what following it took. */
  lemma ChargeUndone(topo: Topo, avail: seq<real>, start: End, p: Path, n: nat, bw: real)
    requires PathOk(topo, p) && n <= |p.links|
    ensures Charged(topo, Charged(topo, avail, start, p, n, bw), start, p, n, -bw) == avail
  {
    hide Taken;
    forall l: nat | l < |avail| ensures Taken(topo, start, p, n, -bw, l) == -Taken(topo, start, p, n, bw, l) {
      TakenNegates(topo, start, p, n, bw, l);
    }
  }

  // ---------------------------------------------------------------- followPath

  /** The first loop of followPath. */
  method FindPciCost(topo: Topo, start: End, p: Path, bw: real) returns (pciBw: real)
    requires PathOk(topo, p)
    ensures pciBw == PciCost(topo, start, p, bw)
  {
    pciBw := bw;
    for step := 0 to |p.links|
      invariant pciBw == if p.kind == PATH_PHB && start.AtGpu? && ThroughIntel(topo, p.links, step) then bw * 6.0 / 5.0 else bw
    {
      var node := topo.links[p.links[step]].remote;
      if node.Cpu? {
        if p.kind == PATH_PHB && start.AtGpu? && node.x86Intel {
          pciBw := bw * 6.0 / 5.0;
        }
      }
    }
  }

  /** One step of a path taken from the links. */
  function OneStep(topo: Topo, avail: seq<real>, start: End, p: Path, k: nat, bw: real): seq<real>
    requires PathOk(topo, p) && k < |p.links| && |avail| == |topo.links| && topo.links[p.links[k]].reverse < |topo.links|
  {
    var l := p.links[k];
    var a := avail[l := avail[l] - Forward(topo, start, p, k, bw)];
    if Backward(topo, start, p, k, bw) == 0.0 then a
    else a[topo.links[l].reverse := a[topo.links[l].reverse] - Backward(topo, start, p, k, bw)]
  }

  lemma OneStepCharges(topo: Topo, avail: seq<real>, start: End, p: Path, k: nat, bw: real)
    requires ValidTopo(topo) && PathOk(topo, p) && k < |p.links| && |avail| == |topo.links|
    ensures OneStep(topo, Charged(topo, avail, start, p, k, bw), start, p, k, bw) == Charged(topo, avail, start, p, k + 1, bw)
  {
    hide Forward, Backward;
  }

  lemma {:induction false} TakenGrows(topo: Topo, start: End, p: Path, n: nat, m: nat, bw: real, l: nat)
    requires PathOk(topo, p) && n <= m <= |p.links| && bw >= 0.0
    ensures Taken(topo, start, p, n, bw, l) <= Taken(topo, start, p, m, bw, l)
    decreases m
  {
    hide Forward, Backward;
    if n < m {
      TakenGrows(topo, start, p, n, m - 1, bw, l);
      CostNegates(topo, start, p, m - 1, bw);
    }
  }

  /** A link that has not enough at some step would be below zero after the whole path. */
  lemma RunsOut(topo: Topo, avail: seq<real>, start: End, p: Path, k: nat, n: nat, bw: real)
    requires ValidTopo(topo) && PathOk(topo, p) && k < n <= |p.links| && |avail| == |topo.links| && bw >= 0.0
    requires var left, l := Charged(topo, avail, start, p, k, bw), p.links[k];
      left[l] < Forward(topo, start, p, k, bw) || left[topo.links[l].reverse] < Backward(topo, start, p, k, bw)
    ensures !NonNeg(Charged(topo, avail, start, p, n, bw))
  {
    hide Forward, Backward;
    var l := p.links[k];
    var rev := topo.links[l].reverse;
    CostNegates(topo, start, p, k, bw);
    TakenGrows(topo, start, p, k + 1, n, bw, l);
    TakenGrows(topo, start, p, k + 1, n, bw, rev);
    var left := Charged(topo, avail, start, p, n, bw);
    assert left[l] < 0.0 || left[rev] < 0.0;
  }

  /** followPath: take bandwidth link by link and stop at the first link that has not enough. */
  method FollowSteps(topo: Topo, avail: seq<real>, start: End, p: Path, maxSteps: nat, bw: real) returns (left: seq<real>, steps: nat)
    requires ValidTopo(topo) && PathOk(topo, p) && maxSteps <= |p.links| && |avail| == |topo.links| && NonNeg(avail)
    ensures steps <= maxSteps && left == Charged(topo, avail, start, p, steps, bw)
    ensures NonNeg(left)
    ensures steps == maxSteps <==> NonNeg(Charged(topo, avail, start, p, maxSteps, bw))
    ensures bw <= 0.0 ==> steps == maxSteps
  {
    var pciBw := FindPciCost(topo, start, p, bw);
    left := avail;
    steps := 0;
    assert left == Charged(topo, avail, start, p, 0, bw);
    while steps < maxSteps
      invariant steps <= maxSteps && left == Charged(topo, avail, start, p, steps, bw) && NonNeg(left)
    {
      var link := topo.links[p.links[steps]];
      var fwBw := if link.kind.PciLink? then pciBw else bw;
      var revBw := 0.0;
      if link.remote.Gpu? && link.remote.cudaCompCap < 80 && !start.AtGpu? {
        revBw := revBw + fwBw / 8.0;
      }
      if link.remote.Cpu? && link.remote.power && link.kind.NvLink? {
        revBw := revBw + fwBw;
      }
      assert fwBw == Forward(topo, start, p, steps, bw) && revBw == Backward(topo, start, p, steps, bw);
      CostNegates(topo, start, p, steps, -bw);
      if left[p.links[steps]] < fwBw || (revBw != 0.0 && left[link.reverse] < revBw) {
        RunsOut(topo, avail, start, p, steps, maxSteps, bw);
        return;
      }
      OneStepCharges(topo, avail, start, p, steps, bw);
      left := left[p.links[steps] := left[p.links[steps]] - fwBw];
      if revBw != 0.0 { left := left[link.reverse := left[link.reverse] - revBw]; }
      steps := steps + 1;
    }
  }
}
