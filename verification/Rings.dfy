/**
 From the chain of GPUs each node found to the ring of all ranks: ncclTopoPreset and connectRings
 (src/graph/connect.cc) stitch the chains together, ncclBuildRings (src/graph/rings.cc) walks and
 checks the ring, setupChannel (src/init.cc) numbers the ranks along it.
 */
module Rings {
  import opened Arith

  /** One chain of ranks per node. */
  type Chains = seq<seq<nat>>

  function Flat(chains: Chains, n: nat): seq<nat>
    requires n <= |chains|
  {
    if n == 0 then [] else Flat(chains, n - 1) + chains[n - 1]
  }

  predicate Distinct(s: seq<nat>) { forall i, j :: 0 <= i < j < |s| ==> s[i] != s[j] }

  /** The chains are non-empty and together contain each of the ranks once. */
  predicate ChainsOk(chains: Chains, ranks: nat) {
    var flat := Flat(chains, |chains|);
    && |chains| >= 1 && (forall n :: 0 <= n < |chains| ==> chains[n] != [])
    && |flat| == ranks && Distinct(flat) && (forall p :: 0 <= p < |flat| ==> flat[p] < ranks)
  }

  lemma {:induction false} FlatPrefix(chains: Chains, m: nat, n: nat)
    requires m <= n <= |chains|
    ensures Flat(chains, m) <= Flat(chains, n)
  {
    if m < n { FlatPrefix(chains, m, n - 1); }
  }

  /** Where the i-th rank of chain n is in the sequence of all. */
  lemma FlatAt(chains: Chains, n: nat, i: nat)
    requires n < |chains| && i < |chains[n]|
    ensures |Flat(chains, n)| + i < |Flat(chains, n + 1)| <= |Flat(chains, |chains|)|
    ensures Flat(chains, |chains|)[|Flat(chains, n)| + i] == chains[n][i]
  {
    FlatPrefix(chains, n + 1, |chains|);
    assert Flat(chains, n + 1)[|Flat(chains, n)| + i] == chains[n][i];
  }

  lemma {:induction false} ChainOf(chains: Chains, m: nat, p: nat) returns (n: nat, i: nat)
    requires m <= |chains| && p < |Flat(chains, m)|
    ensures n < m && i < |chains[n]| && p == |Flat(chains, n)| + i
  {
    var before := |Flat(chains, m - 1)|;
    if p < before { n, i := ChainOf(chains, m - 1, p); } else { n, i := m - 1, p - before; }
  }

  // ---------------------------------------------------------------- presets

  /** What a rank knows of its own chain: both ends, and its neighbours (-1 past an end). */
  datatype Preset = Preset(recv: int, send: int, prev: int, next: int)

  /** The ring part of ncclTopoPreset for the rank at position `at` of its chain. */
  method FindPreset(chain: seq<nat>, rank: nat, ghost at: nat) returns (p: Preset)
    requires Distinct(chain) && at < |chain| && chain[at] == rank
    ensures p == PresetAt(chain, at)
  {
    p := Preset(-1, -1, -1, -1);
    for i := 0 to |chain|
      invariant i > at ==> p == PresetAt(chain, at)
    {
      if chain[i] == rank {
        p := Preset(chain[0], chain[|chain| - 1], if i == 0 then -1 else chain[i - 1], if i == |chain| - 1 then -1 else chain[i + 1]);
      }
    }
  }

  function PresetAt(chain: seq<nat>, at: nat): Preset
    requires at < |chain|
  {
    Preset(chain[0], chain[|chain| - 1], if at == 0 then -1 else chain[at - 1], if at == |chain| - 1 then -1 else chain[at + 1])
  }

  /** Every rank's presets have been gathered into prev and next, and every node's ends into recv and send. */
  predicate Gathered(chains: Chains, recv: seq<int>, send: seq<int>, prev: seq<int>, next: seq<int>) {
    && |recv| == |send| == |chains| && |prev| == |next| == |Flat(chains, |chains|)|
    && (forall n :: 0 <= n < |chains| ==> chains[n] != [] && recv[n] == chains[n][0] && send[n] == chains[n][|chains[n]| - 1])
    && (forall n, i :: 0 <= n < |chains| && 0 <= i < |chains[n]| ==> GatheredAt(chains, prev, next, n, i))
  }

  predicate GatheredAt(chains: Chains, prev: seq<int>, next: seq<int>, n: nat, i: nat)
    requires n < |chains| && i < |chains[n]|
  {
    var r := chains[n][i];
    r < |prev| && r < |next| && prev[r] == PresetAt(chains[n], i).prev && next[r] == PresetAt(chains[n], i).next
  }

  // ---------------------------------------------------------------- stitching

  function After(k: nat, n: nat): (r: nat)
    requires k < n
    ensures r < n
  {
    (k + 1) % n
  }

  function BeforeIx(k: nat, n: nat): (r: nat)
    requires k < n
    ensures r < n
  {
    (k - 1 + n) % n
  }

  lemma AroundIs(k: nat, n: nat)
    requires k < n
    ensures After(k, n) == (if k + 1 < n then k + 1 else 0) && BeforeIx(k, n) == if k == 0 then n - 1 else k - 1
  {
    if k + 1 < n { DivUnique(k + 1, n, 0, k + 1); } else { DivUnique(n, n, 1, 0); }
    if k == 0 { DivUnique(n - 1, n, 0, n - 1); } else { DivUnique(k - 1 + n, n, 1, k - 1); }
  }

  /** The link of the last rank of a chain, and of the first, once the first `m` nodes are stitched. */
  predicate StitchedNode(chains: Chains, prev: seq<int>, next: seq<int>, n: nat)
    requires n < |chains| && chains[n] != [] && chains[After(n, |chains|)] != [] && chains[BeforeIx(n, |chains|)] != []
  {
    var first, last, before := chains[n][0], chains[n][|chains[n]| - 1], chains[BeforeIx(n, |chains|)];
    && last < |next| && next[last] == chains[After(n, |chains|)][0]
    && first < |prev| && prev[first] == before[|before| - 1]
  }

  /** Inside its chain, a rank's neighbours are those of the chain. */
  predicate InnerLinks(chains: Chains, prev: seq<int>, next: seq<int>, n: nat, i: nat)
    requires n < |chains| && i < |chains[n]|
  {
    var r := chains[n][i];
    && r < |prev| && r < |next|
    && (i + 1 < |chains[n]| ==> next[r] == chains[n][i + 1])
    && (i > 0 ==> prev[r] == chains[n][i - 1])
  }

  /** Different places hold different ranks. */
  lemma PlacesDiffer(chains: Chains, ranks: nat, n: nat, i: nat, m: nat, j: nat)
    requires ChainsOk(chains, ranks) && n < |chains| && i < |chains[n]| && m < |chains| && j < |chains[m]| && chains[n][i] == chains[m][j]
    ensures n == m && i == j
  {
    hide Flat;
    FlatAt(chains, n, i);
    FlatAt(chains, m, j);
    assert |Flat(chains, n)| + i == |Flat(chains, m)| + j;
    if n < m { FlatPrefix(chains, n + 1, m); } else if m < n { FlatPrefix(chains, m + 1, n); }
  }

  lemma RankInRange(chains: Chains, ranks: nat, n: nat, i: nat)
    requires ChainsOk(chains, ranks) && n < |chains| && i < |chains[n]|
    ensures chains[n][i] < ranks
  {
    FlatAt(chains, n, i);
  }

  /** connectRings: the end of every chain is linked to the start of the next node's chain. */
  method ConnectRings(chains: Chains, ghost ranks: nat, recv: seq<int>, send: seq<int>, prev0: seq<int>, next0: seq<int>)
    returns (prev: seq<int>, next: seq<int>)
    requires ChainsOk(chains, ranks) && Gathered(chains, recv, send, prev0, next0)
    ensures |prev| == |next| == ranks
    ensures forall n, i :: 0 <= n < |chains| && 0 <= i < |chains[n]| ==> InnerLinks(chains, prev, next, n, i)
    ensures forall n :: 0 <= n < |chains| ==> StitchedNode(chains, prev, next, n)
  {
    prev, next := prev0, next0;
    var nNodes := |chains|;
    forall n, i | 0 <= n < nNodes && 0 <= i < |chains[n]| ensures InnerLinks(chains, prev, next, n, i) {
      assert GatheredAt(chains, prev0, next0, n, i);
    }
    for n := 0 to nNodes
      invariant |prev| == |next| == ranks
      invariant forall m, i :: 0 <= m < nNodes && 0 <= i < |chains[m]| ==> InnerLinks(chains, prev, next, m, i)
      invariant forall m :: 0 <= m < n ==> StitchedNode(chains, prev, next, m)
    {
      ghost var prev1, next1 := prev, next;
      RankInRange(chains, ranks, n, 0);
      RankInRange(chains, ranks, n, |chains[n]| - 1);
      prev := prev[recv[n] := send[(n - 1 + nNodes) % nNodes]];
      next := next[send[n] := recv[(n + 1) % nNodes]];
      StitchKeeps(chains, ranks, prev1, next1, prev, next, n);
    }
  }

  lemma StitchKeeps(chains: Chains, ranks: nat, prev: seq<int>, next: seq<int>, prev': seq<int>, next': seq<int>, n: nat)
    requires ChainsOk(chains, ranks) && n < |chains| && |prev| == |next| == ranks && chains[n][0] < ranks && chains[n][|chains[n]| - 1] < ranks
    requires forall m, i :: 0 <= m < |chains| && 0 <= i < |chains[m]| ==> InnerLinks(chains, prev, next, m, i)
    requires forall m :: 0 <= m < n ==> StitchedNode(chains, prev, next, m)
    requires var before := chains[BeforeIx(n, |chains|)]; prev' == prev[chains[n][0] := before[|before| - 1]]
    requires next' == next[chains[n][|chains[n]| - 1] := chains[After(n, |chains|)][0]]
    ensures forall m, i :: 0 <= m < |chains| && 0 <= i < |chains[m]| ==> InnerLinks(chains, prev', next', m, i)
    ensures forall m :: 0 <= m < n + 1 ==> StitchedNode(chains, prev', next', m)
  {
    hide After, BeforeIx;
    forall m, i | 0 <= m < |chains| && 0 <= i < |chains[m]| ensures InnerLinks(chains, prev', next', m, i) {
      assert InnerLinks(chains, prev, next, m, i);
      if chains[m][i] == chains[n][|chains[n]| - 1] { PlacesDiffer(chains, ranks, m, i, n, |chains[n]| - 1); }
      if chains[m][i] == chains[n][0] { PlacesDiffer(chains, ranks, m, i, n, 0); }
    }
    forall m | 0 <= m < n ensures StitchedNode(chains, prev', next', m) {
      assert StitchedNode(chains, prev, next, m);
      var k := |chains[m]| - 1;
      if chains[m][k] == chains[n][|chains[n]| - 1] { PlacesDiffer(chains, ranks, m, k, n, |chains[n]| - 1); }
      if chains[m][0] == chains[n][0] { PlacesDiffer(chains, ranks, m, 0, n, 0); }
    }
  }

  /** prev and next go once around all ranks. */
  predicate Cycle(flat: seq<nat>, prev: seq<int>, next: seq<int>) {
    && |prev| == |next| == |flat|
    && (forall p :: 0 <= p < |flat| ==> CycleAt(flat, prev, next, p))
  }

  predicate CycleAt(flat: seq<nat>, prev: seq<int>, next: seq<int>, p: nat)
    requires p < |flat| == |prev| == |next|
  {
    var q := After(p, |flat|);
    flat[p] < |next| && flat[q] < |prev| && next[flat[p]] == flat[q] && prev[flat[q]] == flat[p]
  }

  /** Stitching chains that partition the ranks gives one cycle through all of them. */
  lemma StitchedIsCycle(chains: Chains, ranks: nat, prev: seq<int>, next: seq<int>)
    requires ChainsOk(chains, ranks) && |prev| == |next| == ranks
    requires forall n, i :: 0 <= n < |chains| && 0 <= i < |chains[n]| ==> InnerLinks(chains, prev, next, n, i)
    requires forall n :: 0 <= n < |chains| ==> StitchedNode(chains, prev, next, n)
    ensures Cycle(Flat(chains, |chains|), prev, next)
  {
    var flat := Flat(chains, |chains|);
    forall p | 0 <= p < |flat| ensures CycleAt(flat, prev, next, p) { StitchedAt(chains, ranks, prev, next, p); }
  }

  lemma StitchedAt(chains: Chains, ranks: nat, prev: seq<int>, next: seq<int>, p: nat)
    requires ChainsOk(chains, ranks) && |prev| == |next| == ranks && p < ranks
    requires forall n, i :: 0 <= n < |chains| && 0 <= i < |chains[n]| ==> InnerLinks(chains, prev, next, n, i)
    requires forall n :: 0 <= n < |chains| ==> StitchedNode(chains, prev, next, n)
    ensures CycleAt(Flat(chains, |chains|), prev, next, p)
  {
    hide After, BeforeIx, Flat;
    var flat, nodes := Flat(chains, |chains|), |chains|;
    var n, i := ChainOf(chains, nodes, p);
    FlatAt(chains, n, i);
    AroundIs(p, ranks);
    AroundIs(n, nodes);
    assert InnerLinks(chains, prev, next, n, i);
    if i + 1 < |chains[n]| {
      FlatAt(chains, n, i + 1);
      assert InnerLinks(chains, prev, next, n, i + 1);
    } else {
      var m := After(n, nodes);
      FlatAt(chains, m, 0);
      AroundIs(m, nodes);
      FlatStep(chains, n);
      assert StitchedNode(chains, prev, next, n) && StitchedNode(chains, prev, next, m);
    }
  }

  lemma FlatStep(chains: Chains, n: nat)
    requires n < |chains|
    ensures |Flat(chains, n + 1)| == |Flat(chains, n)| + |chains[n]| && Flat(chains, 0) == []
  {
  }

  // ---------------------------------------------------------------- walking the ring

  predicate LinksOk(next: seq<int>) { forall r :: 0 <= r < |next| ==> 0 <= next[r] < |next| }

  /** `i` steps from `r`. */
  function Walk(next: seq<int>, r: nat, i: nat): (q: nat)
    requires LinksOk(next) && r < |next|
    ensures q < |next|
  {
    if i == 0 then r else next[Walk(next, r, i - 1)]
  }

  /** ncclBuildRings for one ring: it succeeds exactly when the walk comes back and has met every rank. */
  method BuildRing(next: seq<int>, rank: nat) returns (ok: bool, ring: seq<nat>)
    requires LinksOk(next) && rank < |next|
    ensures |ring| == |next| && forall i :: 0 <= i < |next| ==> ring[i] == Walk(next, rank, i)
    ensures ok <==> Walk(next, rank, |next|) == rank && forall r: nat :: r < |next| ==> r in ring
  {
    var nranks := |next|;
    ring := [];
    var current := rank;
    for i := 0 to nranks
      invariant |ring| == i && current == Walk(next, rank, i)
      invariant forall j :: 0 <= j < i ==> ring[j] == Walk(next, rank, j)
    {
      ring := ring + [current];
      current := next[current];
    }
    if current != rank { return false, ring; }
    for i := 0 to nranks
      invariant forall r: nat :: r < i ==> r in ring
    {
      var found := false;
      var j := 0;
      while j < nranks && !found
        invariant 0 <= j <= nranks && (found ==> i in ring) && (!found ==> i !in ring[..j])
        decreases nranks - j, !found
      {
        if ring[j] == i { found := true; } else { j := j + 1; }
      }
      if !found {
        assert ring[..nranks] == ring;
        return false, ring;
      }
    }
    return true, ring;
  }

  /** Position `k` places further on. */
  function Ahead(p: nat, k: nat, n: nat): (q: nat)
    requires n >= 1
    ensures q < n
  {
    (p + k) % n
  }

  lemma AheadNext(p: nat, k: nat, n: nat)
    requires p < n
    ensures After(Ahead(p, k, n), n) == Ahead(p, k + 1, n) && Ahead(p, 0, n) == p && Ahead(p, n, n) == p
  {
    DivModFacts(p + k, n);
    AroundIs(Ahead(p, k, n), n);
    var q, m := (p + k) / n, (p + k) % n;
    if m + 1 < n { DivUnique(p + k + 1, n, q, m + 1); } else {
      assert (q + 1) * n == q * n + n;
      DivUnique(p + k + 1, n, q + 1, 0);
    }
    DivUnique(p, n, 0, p);
    DivUnique(p + n, n, 1, p);
  }

  lemma {:induction false} WalkAlongCycle(flat: seq<nat>, prev: seq<int>, next: seq<int>, p: nat, i: nat)
    requires Cycle(flat, prev, next) && LinksOk(next) && p < |flat| && flat[p] < |next|
    ensures Walk(next, flat[p], i) == flat[Ahead(p, i, |flat|)]
  {
    hide Ahead, After;
    AheadNext(p, 0, |flat|);
    if i > 0 {
      WalkAlongCycle(flat, prev, next, p, i - 1);
      AheadNext(p, i - 1, |flat|);
      assert CycleAt(flat, prev, next, Ahead(p, i - 1, |flat|));
    }
  }

  /** From every rank the walk comes back after meeting every rank: ncclBuildRings succeeds. */
  lemma RingIsBuilt(flat: seq<nat>, prev: seq<int>, next: seq<int>, p: nat, r: nat) returns (i: nat)
    requires Cycle(flat, prev, next) && LinksOk(next) && p < |flat| && flat[p] < |next| && r < |flat|
    ensures Walk(next, flat[p], |flat|) == flat[p]
    ensures i < |flat| && Ahead(p, i, |flat|) == r && Walk(next, flat[p], i) == flat[r]
  {
    hide Ahead, Walk;
    AheadNext(p, 0, |flat|);
    WalkAlongCycle(flat, prev, next, p, |flat|);
    i := Gap(p, r, |flat|);
    WalkAlongCycle(flat, prev, next, p, i);
  }

  lemma Gap(p: nat, r: nat, n: nat) returns (i: nat)
    requires p < n && r < n
    ensures i == (if p <= r then r - p else r + n - p) && i < n
    ensures Ahead(p, i, n) == r && forall k: nat :: k < n && Ahead(p, k, n) == r ==> k == i
  {
    i := if p <= r then r - p else r + n - p;
    forall k: nat | k < n ensures Ahead(p, k, n) == r <==> k == i {
      if p + k < n { DivUnique(p + k, n, 0, p + k); } else { DivUnique(p + k, n, 1, p + k - n); }
    }
  }

  // ---------------------------------------------------------------- the index in the ring

  /** setupChannel: the distance from rank 0 along the ring, and the ranks in ring order from this one on. */
  method SetupChannel(ring: seq<nat>, rank: nat, ghost at: nat, ghost zero: nat) returns (index: nat, userRanks: seq<nat>)
    requires Distinct(ring) && at < |ring| && zero < |ring| && ring[at] == rank && ring[zero] == 0
    ensures index == (at - zero + |ring|) % |ring|
    ensures |userRanks| == |ring| && forall i :: 0 <= i < |ring| ==> userRanks[i] == ring[Ahead(i, at, |ring|)]
  {
    var nranks := |ring|;
    var ixZero, ixRank := 0, 0;
    for i := 0 to nranks
      invariant (i > at ==> ixRank == at) && (i > zero ==> ixZero == zero)
    {
      if ring[i] == 0 { ixZero := i; }
      if ring[i] == rank { ixRank := i; }
    }
    index := (ixRank - ixZero + nranks) % nranks;
    userRanks := [];
    for i := 0 to nranks
      invariant |userRanks| == i && forall j :: 0 <= j < i ==> userRanks[j] == ring[Ahead(j, at, nranks)]
    {
      userRanks := userRanks + [ring[(i + ixRank) % nranks]];
    }
  }

  /** The index of the rank at position p, when rank 0 is at position z: its ring is its own walk, which starts with itself. */
  function IndexOf(p: nat, z: nat, n: nat): (k: nat)
    requires p < n && z < n
    ensures k < n
  {
    var zero := if p <= z then z - p else z + n - p;
    (0 - zero + n) % n
  }

  /** The next rank on the ring has the next index. */
  lemma IndexAdvances(p: nat, z: nat, n: nat)
    requires p < n && z < n
    ensures IndexOf(After(p, n), z, n) == After(IndexOf(p, z, n), n)
    ensures IndexOf(z, z, n) == 0
  {
    hide After;
    AroundIs(p, n);
    IndexIs(p, z, n);
    IndexIs(After(p, n), z, n);
    IndexIs(z, z, n);
    AroundIs(IndexOf(p, z, n), n);
  }

  lemma IndexIs(p: nat, z: nat, n: nat)
    requires p < n && z < n
    ensures IndexOf(p, z, n) == if p >= z then p - z else p - z + n
  {
    var zero := if p <= z then z - p else z + n - p;
    if zero == 0 { DivUnique(n, n, 1, 0); } else { DivUnique(n - zero, n, 0, n - zero); }
  }

  /** What setupChannel computes for a rank from its own ring is that index: one more than its predecessor's. */
  lemma RingIndex(flat: seq<nat>, prev: seq<int>, next: seq<int>, ring: seq<nat>, p: nat, z: nat) returns (zero: nat)
    requires Cycle(flat, prev, next) && LinksOk(next) && Distinct(flat) && p < |flat| && z < |flat| && flat[z] == 0 && flat[p] < |next|
    requires |ring| == |flat| && forall i :: 0 <= i < |ring| ==> ring[i] == Walk(next, flat[p], i)
    ensures zero < |ring| && ring[zero] == 0 && ring[0] == flat[p] && Distinct(ring)
    ensures (0 - zero + |ring|) % |ring| == IndexOf(p, z, |flat|)
  {
    hide Ahead, Walk, Cycle, After;
    var n := |flat|;
    forall i | 0 <= i < n ensures ring[i] == flat[Ahead(p, i, n)] { WalkAlongCycle(flat, prev, next, p, i); }
    zero := Gap(p, z, n);
    AheadNext(p, 0, n);
    forall i, j | 0 <= i < j < n ensures Ahead(p, i, n) != Ahead(p, j, n) { var g := Gap(p, Ahead(p, i, n), n); }
  }

  /** From the gathered presets to ring and index, for the rank at position `p` of all chains: the ring is always built. */
  method RingOf(chains: Chains, ghost ranks: nat, recv: seq<int>, send: seq<int>, prev0: seq<int>, next0: seq<int>,
                rank: nat, ghost p: nat, ghost z: nat) returns (ok: bool, ring: seq<nat>, index: nat)
    requires ChainsOk(chains, ranks) && Gathered(chains, recv, send, prev0, next0)
    requires p < ranks && z < ranks && Flat(chains, |chains|)[p] == rank && Flat(chains, |chains|)[z] == 0
    ensures ok && index == IndexOf(p, z, ranks)
    ensures |ring| == ranks && forall i :: 0 <= i < ranks ==> ring[i] == Flat(chains, |chains|)[Ahead(p, i, ranks)]
  {
    hide Cycle, Walk, Ahead, Gathered, Flat, IndexOf, InnerLinks, StitchedNode, Distinct, LinksOk;
    ghost var flat := Flat(chains, |chains|);
    var prev, next := ConnectRings(chains, ranks, recv, send, prev0, next0);
    StitchedIsCycle(chains, ranks, prev, next);
    CycleLinks(flat, prev, next);
    ok, ring := BuildRing(next, rank);
    WholeRing(flat, prev, next, ring, p);
    ghost var zero := RingIndex(flat, prev, next, ring, p, z);
    var userRanks;
    index, userRanks := SetupChannel(ring, rank, 0, zero);
  }

  /** The walk of a rank around the cycle. */
  lemma WholeRing(flat: seq<nat>, prev: seq<int>, next: seq<int>, ring: seq<nat>, p: nat)
    requires Cycle(flat, prev, next) && LinksOk(next) && p < |flat| && flat[p] < |next| && Distinct(flat)
    requires forall k :: 0 <= k < |flat| ==> flat[k] < |flat|
    requires |ring| == |flat| && forall i :: 0 <= i < |ring| ==> ring[i] == Walk(next, flat[p], i)
    ensures Walk(next, flat[p], |flat|) == flat[p] && forall r: nat :: r < |flat| ==> r in ring
    ensures forall i :: 0 <= i < |flat| ==> ring[i] == flat[Ahead(p, i, |flat|)]
  {
    hide Cycle, Walk, Ahead;
    forall i | 0 <= i < |flat| ensures ring[i] == flat[Ahead(p, i, |flat|)] { WalkAlongCycle(flat, prev, next, p, i); }
    forall r: nat | r < |flat| ensures r in ring { RankMet(flat, prev, next, ring, p, r); }
    var i := RingIsBuilt(flat, prev, next, p, 0);
  }

  /** Every rank is on the cycle, and so is met on the way around. */
  lemma RankMet(flat: seq<nat>, prev: seq<int>, next: seq<int>, ring: seq<nat>, p: nat, r: nat)
    requires Cycle(flat, prev, next) && LinksOk(next) && p < |flat| && flat[p] < |next| && r < |flat| && Distinct(flat)
    requires forall k :: 0 <= k < |flat| ==> flat[k] < |flat|
    requires |ring| == |flat| && forall i :: 0 <= i < |ring| ==> ring[i] == Walk(next, flat[p], i)
    ensures r in ring
  {
    hide Walk, Cycle;
    var k := PlaceOf(flat, r);
    var i := RingIsBuilt(flat, prev, next, p, k);
    assert ring[i] == r;
  }

  /** Distinct numbers below their count: every number occurs. */
  lemma PlaceOf(s: seq<nat>, x: nat) returns (k: nat)
    requires Distinct(s) && x < |s| && forall i :: 0 <= i < |s| ==> s[i] < |s|
    ensures k < |s| && s[k] == x
  {
    if x !in s {
      SmallDistinct(s, |s|, x);
    }
    k :| k < |s| && s[k] == x;
  }

  lemma {:induction false} SmallDistinct(s: seq<nat>, n: nat, x: nat)
    requires Distinct(s) && x < n && x !in s && forall i :: 0 <= i < |s| ==> s[i] < n
    ensures |s| < n
  {
    if s != [] {
      var m := n - 1;
      if x == m {
        var y := s[|s| - 1];
        var t := s[..|s| - 1];
        SmallDistinct(t, m, y);
      } else if m in s {
        var k :| 0 <= k < |s| && s[k] == m;
        var t := s[..k] + s[k + 1..];
        assert x !in t;
        SmallDistinct(t, m, x);
      } else {
        SmallDistinct(s, m, x);
      }
    }
  }

  lemma CycleLinks(flat: seq<nat>, prev: seq<int>, next: seq<int>)
    requires Cycle(flat, prev, next) && Distinct(flat) && forall k :: 0 <= k < |flat| ==> flat[k] < |flat|
    ensures LinksOk(next)
  {
    hide After;
    forall r | 0 <= r < |next| ensures 0 <= next[r] < |next| {
      var k := PlaceOf(flat, r);
      assert CycleAt(flat, prev, next, k);
    }
  }
}
