/**
 The order in which a rank sends to and receives from every other rank (src/init.cc): node offsets
 in the order 0, n/2, 1, -1, ..., and for each of them as many steps as the largest node has ranks,
 rounded up by ALIGN_POWER.
 */
module P2pSchedule {
  import opened Arith

  // ---------------------------------------------------------------- node offsets

  /** The four offsets of round `d`. */
  function Deltas4(n: nat, d: nat): (deltas: seq<nat>)
    requires n >= 1 && d <= n / 4
    ensures |deltas| == 4
  {
    [d, (n - d) % n, n / 2 - d, (n - (n / 2 - d)) % n]
  }

  /** The offset tried after number `index`: skip the repetitions. */
  function NextIndex(deltas: seq<nat>, index: nat): (next: nat)
    requires |deltas| == 4 && index < 4
    ensures index < next <= 4
  {
    var i1 := index + 1;
    var i2 := if i1 == 1 && deltas[1] == deltas[0] then i1 + 1 else i1;
    var i3 := if i2 == 2 && deltas[2] == deltas[0] then i2 + 1 else i2;
    var i4 := if i3 == 3 && deltas[3] == deltas[2] then i3 + 1 else i3;
    if i4 == 3 && deltas[3] == deltas[1] then i4 + 1 else i4
  }

  /** The offsets used from number `index` on. */
  function From(deltas: seq<nat>, index: nat): seq<nat>
    requires |deltas| == 4 && index <= 4
    decreases 4 - index
  {
    if index == 4 then [] else [deltas[index]] + From(deltas, NextIndex(deltas, index))
  }

  /** The offsets of the first `rounds` rounds. */
  function Offsets(n: nat, rounds: nat): seq<nat>
    requires n >= 1 && rounds <= n / 4 + 1
  {
    if rounds == 0 then [] else Offsets(n, rounds - 1) + From(Deltas4(n, rounds - 1), 0)
  }

  /** The round that takes care of an offset. */
  function RoundOf(n: nat, x: nat): nat
    requires x < n
  {
    var a := if x <= n - x then x else n - x;
    if a <= n / 4 then a else n / 2 - a
  }

  predicate Distinct(s: seq<nat>) { forall i, j :: 0 <= i < j < |s| ==> s[i] != s[j] }

  lemma Deltas4Are(n: nat, d: nat)
    requires n >= 1 && d <= n / 4
    ensures Deltas4(n, d)[0] == d < n
    ensures Deltas4(n, d)[1] == if d == 0 then 0 else n - d
    ensures Deltas4(n, d)[2] == n / 2 - d < n
    ensures Deltas4(n, d)[3] == if n / 2 == d then 0 else n - (n / 2 - d)
  {
    if d == 0 { DivUnique(n, n, 1, 0); } else { DivUnique(n - d, n, 0, n - d); }
    var h := n / 2 - d;
    if h == 0 { DivUnique(n, n, 1, 0); } else { DivUnique(n - h, n, 0, n - h); }
  }

  /** A round uses exactly its own offsets, each once. */
  lemma RoundIsExact(n: nat, d: nat)
    requires n >= 1 && d <= n / 4
    ensures Distinct(From(Deltas4(n, d), 0))
    ensures forall x: nat :: x in From(Deltas4(n, d), 0) <==> x < n && RoundOf(n, x) == d
  {
    Deltas4Are(n, d);
    var a := Deltas4(n, d);
    hide Deltas4;
    var s := From(a, 0);
    assert From(a, 4) == [];
    assert From(a, 3) == [a[3]];
    assert From(a, 2) == if NextIndex(a, 2) == 4 then [a[2]] else [a[2], a[3]];
    forall x: nat ensures x in s <==> x < n && RoundOf(n, x) == d {
    }
  }

  lemma {:induction false} OffsetsAreExact(n: nat, rounds: nat)
    requires n >= 1 && rounds <= n / 4 + 1
    ensures Distinct(Offsets(n, rounds))
    ensures forall x: nat :: x in Offsets(n, rounds) <==> x < n && RoundOf(n, x) < rounds
  {
    hide RoundOf, From, Deltas4;
    if rounds > 0 {
      OffsetsAreExact(n, rounds - 1);
      RoundIsExact(n, rounds - 1);
      var a, b := Offsets(n, rounds - 1), From(Deltas4(n, rounds - 1), 0);
      assert forall x: nat :: x in a + b <==> x in a || x in b;
      forall i, j | 0 <= i < j < |a + b| ensures (a + b)[i] != (a + b)[j] {
        if i < |a| <= j { assert (a + b)[i] in a && (a + b)[j] in b; }
      }
    }
  }

  /** Distinct numbers below n: at most n of them, and exactly n when none is missing. */
  lemma {:induction false} CountBelow(s: seq<nat>, n: nat)
    requires Distinct(s) && forall k :: 0 <= k < |s| ==> s[k] < n
    ensures |s| <= n && ((forall x: nat :: x < n ==> x in s) ==> |s| == n)
  {
    if s != [] { assert s[0] < n; }
    if n > 0 {
      if k :| 0 <= k < |s| && s[k] == n - 1 {
        var t := s[..k] + s[k + 1..];
        forall x: nat | x < n - 1 && x in s ensures x in t {
          var j :| 0 <= j < |s| && s[j] == x;
          assert t[if j < k then j else j - 1] == x;
        }
        CountBelow(t, n - 1);
      } else {
        CountBelow(s, n - 1);
        assert n - 1 !in s;
      }
    }
  }

  /** All offsets, in schedule order. */
  function Schedule(n: nat): seq<nat>
    requires n >= 1
  {
    Offsets(n, n / 4 + 1)
  }

  lemma RoundInRange(n: nat, x: nat)
    requires x < n
    ensures RoundOf(n, x) < n / 4 + 1
  {
  }

  /** Every offset is scheduled exactly once. */
  lemma EveryOffsetOnce(n: nat)
    requires n >= 1
    ensures |Schedule(n)| == n && Distinct(Schedule(n))
    ensures forall x: nat :: x in Schedule(n) <==> x < n
  {
    hide RoundOf, Offsets;
    OffsetsAreExact(n, n / 4 + 1);
    forall x: nat | x < n ensures RoundOf(n, x) < n / 4 + 1 { RoundInRange(n, x); }
    var s := Schedule(n);
    forall k | 0 <= k < |s| ensures s[k] < n { assert s[k] in s; }
    CountBelow(s, n);
  }

  // ---------------------------------------------------------------- ranks, nodes and steps

  /** Which rank is where: node and local rank of every rank, and the ranks of every node. */
  datatype Tables = Tables(node: seq<nat>, local: seq<nat>, ranks: seq<seq<nat>>)

  ghost predicate TablesOk(t: Tables) {
    && |t.node| == |t.local| && |t.ranks| >= 1
    && (forall r :: 0 <= r < |t.node| ==> t.node[r] < |t.ranks| && t.local[r] < |t.ranks[t.node[r]]| && t.ranks[t.node[r]][t.local[r]] == r)
    && (forall m, k :: 0 <= m < |t.ranks| && 0 <= k < |t.ranks[m]| ==>
          t.ranks[m][k] < |t.node| && t.node[t.ranks[m][k]] == m && t.local[t.ranks[m][k]] == k)
  }

  /** The steps of a node offset: enough for the largest node. */
  predicate StepsOk(t: Tables, steps: nat) {
    steps >= 1 && forall m :: 0 <= m < |t.ranks| ==> |t.ranks[m]| <= steps
  }

  /** ALIGN_POWER of src/include/align.h. */
  function AlignPower(x: nat, y: nat): (r: nat)
    requires x >= 1 && y >= 1
    ensures r >= x
  {
    if x > y then DivUp(x, y) * y
    else
      DivModFacts(y, x);
      DivMono(x, y, x);
      var q := y / x;
      DivModFacts(y, q);
      AlignDown(x, y, q);
      y / q
  }

  lemma AlignDown(x: nat, y: nat, q: nat)
    requires x >= 1 && q >= 1 && q * x <= y
    ensures y / q >= x
  {
    DivModFacts(y, q);
    if y / q < x { MulMono(y / q + 1, x, q); }
  }

  /** The number of steps divides the eight of a fused group or is a multiple of it, and is not much more than asked for. */
  lemma AlignsToEight(x: nat)
    requires x >= 1
    ensures var r := AlignPower(x, 8); (r % 8 == 0 || 8 % r == 0) && x <= r < x + 8 && (x in {1, 2, 4} ==> r == x)
  {
    if x > 8 {
      DivUnique(AlignPower(x, 8), 8, DivUp(x, 8), 0);
    } else {
      assert x in {1, 2, 3, 4, 5, 6, 7, 8};
    }
  }

  function At(t: Tables, m: nat, index: nat): int
    requires m < |t.ranks|
  {
    if index < |t.ranks[m]| then t.ranks[m][index] else -1
  }

  function Ahead(a: nat, d: nat, n: nat): (r: nat)
    requires n >= 1
    ensures r < n
  {
    (a + d) % n
  }

  /** Whom rank `r` sends to, and receives from, at one step of one offset. */
  function SendPeer(t: Tables, steps: nat, r: nat, delta: nat, step: nat): int
    requires |t.ranks| >= 1 && steps >= 1 && r < |t.node| && r < |t.local|
  {
    At(t, Ahead(t.node[r], delta, |t.ranks|), Ahead(t.local[r], step, steps))
  }

  function RecvPeer(t: Tables, steps: nat, r: nat, delta: nat, step: nat): int
    requires |t.ranks| >= 1 && steps >= 1 && r < |t.node| && r < |t.local| && delta < |t.ranks| && step < steps
  {
    At(t, (t.node[r] + |t.ranks| - delta) % |t.ranks|, (t.local[r] - step + steps) % steps)
  }

  /** Going forward by d and back by d. */
  lemma ModInverse(a: nat, b: nat, d: nat, n: nat)
    requires a < n && b < n && d < n
    ensures (a + d) % n == b <==> (b + n - d) % n == a
  {
    if a + d < n { DivUnique(a + d, n, 0, a + d); } else { DivUnique(a + d, n, 1, a + d - n); }
    if b < d { DivUnique(b + n - d, n, 0, b + n - d); } else { DivUnique(b + n - d, n, 1, b - d); }
  }

  /** At every step of every offset, a sends to b exactly when b receives from a. */
  lemma SendMatchesRecv(t: Tables, steps: nat, a: nat, b: nat, delta: nat, step: nat)
    requires TablesOk(t) && StepsOk(t, steps) && a < |t.node| && b < |t.node| && delta < |t.ranks| && step < steps
    ensures SendPeer(t, steps, a, delta, step) == b <==> RecvPeer(t, steps, b, delta, step) == a
  {
    ModInverse(t.node[a], t.node[b], delta, |t.ranks|);
    ModInverse(t.local[a], t.local[b], step, steps);
    PeerIs(t, Ahead(t.node[a], delta, |t.ranks|), Ahead(t.local[a], step, steps), b);
    PeerIs(t, (t.node[b] + |t.ranks| - delta) % |t.ranks|, (t.local[b] - step + steps) % steps, a);
  }

  lemma PeerIs(t: Tables, m: nat, index: nat, b: nat)
    requires TablesOk(t) && m < |t.ranks| && b < |t.node|
    ensures At(t, m, index) == b <==> t.node[b] == m && t.local[b] == index
  {
  }

  /** Exactly one offset and one step lead from a to b. */
  lemma OneWay(t: Tables, steps: nat, a: nat, b: nat) returns (delta: nat, step: nat)
    requires TablesOk(t) && StepsOk(t, steps) && a < |t.node| && b < |t.node|
    ensures delta < |t.ranks| && step < steps && SendPeer(t, steps, a, delta, step) == b
    ensures forall d, s :: 0 <= d < |t.ranks| && 0 <= s < steps && SendPeer(t, steps, a, d, s) == b ==> d == delta && s == step
  {
    hide Ahead;
    delta := Offset(t.node[a], t.node[b], |t.ranks|);
    step := Offset(t.local[a], t.local[b], steps);
    forall d, s | 0 <= d < |t.ranks| && 0 <= s < steps ensures SendPeer(t, steps, a, d, s) == b <==> d == delta && s == step {
      PeerIs(t, Ahead(t.node[a], d, |t.ranks|), Ahead(t.local[a], s, steps), b);
    }
  }

  lemma Offset(a: nat, b: nat, n: nat) returns (d: nat)
    requires a < n && b < n
    ensures d < n && forall x :: 0 <= x < n ==> (Ahead(a, x, n) == b <==> x == d)
  {
    d := if a <= b then b - a else b + n - a;
    forall x | 0 <= x < n ensures Ahead(a, x, n) == b <==> x == d {
      if a + x < n { DivUnique(a + x, n, 0, a + x); } else { DivUnique(a + x, n, 1, a + x - n); }
    }
  }

  // ---------------------------------------------------------------- the order arrays

  /** Entry `i` of the send order: offset number i / steps, step i % steps. */
  function SendAt(t: Tables, steps: nat, r: nat, i: nat): int
    requires |t.ranks| >= 1 && steps >= 1 && r < |t.node| && r < |t.local| && i / steps < |Schedule(|t.ranks|)|
  {
    DivNonNeg(i, steps);
    DivModFacts(i, steps);
    SendPeer(t, steps, r, Schedule(|t.ranks|)[i / steps], i % steps)
  }

  function RecvAt(t: Tables, steps: nat, r: nat, i: nat): int
    requires |t.ranks| >= 1 && steps >= 1 && r < |t.node| && r < |t.local| && i / steps < |Schedule(|t.ranks|)|
  {
    DivNonNeg(i, steps);
    DivModFacts(i, steps);
    OffsetInRange(|t.ranks|, i / steps);
    RecvPeer(t, steps, r, Schedule(|t.ranks|)[i / steps], i % steps)
  }

  lemma OffsetInRange(n: nat, k: nat)
    requires n >= 1 && k < |Schedule(n)|
    ensures Schedule(n)[k] < n
  {
    hide Schedule;
    EveryOffsetOnce(n);
    assert Schedule(n)[k] in Schedule(n);
  }

  lemma EntryInSchedule(n: nat, steps: nat, i: nat)
    requires n >= 1 && steps >= 1 && i < n * steps
    ensures 0 <= i / steps < |Schedule(n)| == n && 0 <= i % steps < steps && Schedule(n)[i / steps] < n
  {
    hide Schedule;
    EveryOffsetOnce(n);
    DivModFacts(i, steps);
    DivNonNeg(i, steps);
    if i / steps >= n { MulMono(n, i / steps, steps); }
    assert Schedule(n)[i / steps] in Schedule(n);
  }

  /** At every position of the order arrays, a sends to b exactly when b receives from a. */
  lemma OrdersMatch(t: Tables, steps: nat, a: nat, b: nat, i: nat)
    requires TablesOk(t) && StepsOk(t, steps) && a < |t.node| && b < |t.node| && i < |t.ranks| * steps
    ensures i / steps < |Schedule(|t.ranks|)| && (SendAt(t, steps, a, i) == b <==> RecvAt(t, steps, b, i) == a)
  {
    hide Schedule, SendPeer, RecvPeer, TablesOk;
    assert |t.ranks| >= 1 && |t.node| == |t.local| by { TablesShape(t); }
    EntryInSchedule(|t.ranks|, steps, i);
    SendMatchesRecv(t, steps, a, b, Schedule(|t.ranks|)[i / steps], i % steps);
  }

  lemma TablesShape(t: Tables)
    requires TablesOk(t)
    ensures |t.ranks| >= 1 && |t.node| == |t.local|
  {
  }

  lemma Position(k: nat, step: nat, n: nat, steps: nat) returns (i: nat)
    requires k < n && step < steps
    ensures i == k * steps + step && i < n * steps && i / steps == k && i % steps == step
  {
    i := k * steps + step;
    MulMono(k + 1, n, steps);
    assert (k + 1) * steps == k * steps + steps;
    DivUnique(i, steps, k, step);
  }

  /** Every rank occurs exactly once in every rank's send order. */
  lemma SendsOnce(t: Tables, steps: nat, a: nat, b: nat) returns (i: nat)
    requires TablesOk(t) && StepsOk(t, steps) && a < |t.node| && b < |t.node|
    ensures i < |t.ranks| * steps && i / steps < |Schedule(|t.ranks|)| && SendAt(t, steps, a, i) == b
    ensures forall j: nat :: j < |t.ranks| * steps && j / steps < |Schedule(|t.ranks|)| && SendAt(t, steps, a, j) == b ==> j == i
  {
    hide Schedule, SendPeer, RecvPeer, TablesOk;
    TablesShape(t);
    var n := |t.ranks|;
    EveryOffsetOnce(n);
    var delta, step := OneWay(t, steps, a, b);
    assert delta in Schedule(n);
    var k :| 0 <= k < n && Schedule(n)[k] == delta;
    i := Position(k, step, n, steps);
    SendAtIs(t, steps, a, i);
    hide SendAt;
    forall j: nat | j < n * steps && j / steps < |Schedule(n)| && SendAt(t, steps, a, j) == b ensures j == i {
      EntryInSchedule(n, steps, j);
      SendAtIs(t, steps, a, j);
      assert Schedule(n)[j / steps] == delta && j % steps == step;
      SamePosition(Schedule(n), j, k, steps);
    }
  }

  lemma SendAtIs(t: Tables, steps: nat, a: nat, j: nat)
    requires |t.ranks| >= 1 && steps >= 1 && a < |t.node| && a < |t.local| && j / steps < |Schedule(|t.ranks|)|
    ensures 0 <= j / steps && 0 <= j % steps && SendAt(t, steps, a, j) == SendPeer(t, steps, a, Schedule(|t.ranks|)[j / steps], j % steps)
  {
    hide Schedule, SendPeer;
    DivNonNeg(j, steps);
    DivModFacts(j, steps);
  }

  lemma SamePosition(s: seq<nat>, j: nat, k: nat, steps: nat)
    requires Distinct(s) && steps >= 1 && k < |s| && j / steps < |s| && s[j / steps] == s[k]
    ensures j == k * steps + j % steps
  {
    DivModFacts(j, steps);
  }

  /** ... and exactly once in every rank's receive order. */
  lemma ReceivesOnce(t: Tables, steps: nat, a: nat, b: nat) returns (i: nat)
    requires TablesOk(t) && StepsOk(t, steps) && a < |t.node| && b < |t.node|
    ensures i < |t.ranks| * steps && i / steps < |Schedule(|t.ranks|)| && RecvAt(t, steps, a, i) == b
    ensures forall j: nat :: j < |t.ranks| * steps && j / steps < |Schedule(|t.ranks|)| && RecvAt(t, steps, a, j) == b ==> j == i
  {
    hide Schedule, SendAt, RecvAt, TablesOk;
    TablesShape(t);
    i := SendsOnce(t, steps, b, a);
    OrdersMatch(t, steps, b, a, i);
    forall j: nat | j < |t.ranks| * steps && j / steps < |Schedule(|t.ranks|)| && RecvAt(t, steps, a, j) == b ensures j == i {
      OrdersMatch(t, steps, b, a, j);
    }
  }

  lemma {:induction false} OffsetsPrefix(n: nat, a: nat, b: nat)
    requires n >= 1 && a <= b <= n / 4 + 1
    ensures Offsets(n, a) <= Offsets(n, b)
  {
    hide From, Deltas4;
    if a < b { OffsetsPrefix(n, a, b - 1); }
  }

  /** The entries of the order arrays that belong to the offsets in `done`. */
  ghost predicate Filled(t: Tables, steps: nat, r: nat, send: seq<int>, recv: seq<int>, i: nat)
    requires |t.ranks| >= 1 && steps >= 1 && r < |t.node| && r < |t.local|
  {
    && i <= |send| == |recv| == |t.ranks| * steps
    && forall j: nat :: j < i ==> j / steps < |Schedule(|t.ranks|)| && send[j] == SendAt(t, steps, r, j) && recv[j] == RecvAt(t, steps, r, j)
  }

  /** The steps of one offset. */
  method FillOffset(t: Tables, steps: nat, r: nat, delta: nat, send: array<int>, recv: array<int>, i0: nat, ghost k: nat)
    requires TablesOk(t) && steps >= 1 && r < |t.node| && send != recv
    requires k < |t.ranks| && k < |Schedule(|t.ranks|)| && Schedule(|t.ranks|)[k] == delta < |t.ranks|
    requires i0 == k * steps && Filled(t, steps, r, send[..], recv[..], i0)
    modifies send, recv
    ensures i0 + steps <= |t.ranks| * steps && Filled(t, steps, r, send[..], recv[..], i0 + steps)
  {
    hide Schedule, TablesOk;
    TablesShape(t);
    var nNodes := |t.ranks|;
    MulMono(k + 1, nNodes, steps);
    assert (k + 1) * steps == k * steps + steps;
    var recvNode := (t.node[r] + nNodes - delta) % nNodes;
    var sendNode := (t.node[r] + delta) % nNodes;
    for step := 0 to steps
      invariant Filled(t, steps, r, send[..], recv[..], i0 + step)
    {
      var i := i0 + step;
      DivUnique(i, steps, k, step);
      var recvIndex := (t.local[r] - step + steps) % steps;
      recv[i] := if recvIndex < |t.ranks[recvNode]| then t.ranks[recvNode][recvIndex] else -1;
      var sendIndex := (t.local[r] + step) % steps;
      send[i] := if sendIndex < |t.ranks[sendNode]| then t.ranks[sendNode][sendIndex] else -1;
      assert send[i] == SendAt(t, steps, r, i) && recv[i] == RecvAt(t, steps, r, i);
    }
  }

  /** Entries filled in the first `d` rounds. */
  function EntryCount(n: nat, d: nat, steps: nat): nat
    requires n >= 1 && d <= n / 4 + 1
  {
    MulNonNeg(|Offsets(n, d)|, steps);
    |Offsets(n, d)| * steps
  }

  lemma AllEntries(n: nat, steps: nat)
    requires n >= 1
    ensures EntryCount(n, 0, steps) == 0 && EntryCount(n, n / 4 + 1, steps) == n * steps
  {
    EveryOffsetOnce(n);
    assert Offsets(n, 0) == [];
  }

  /** One round: up to four offsets, without repetitions. */
  method FillRound(t: Tables, steps: nat, r: nat, d: nat, send: array<int>, recv: array<int>, i0: nat) returns (i: nat)
    requires TablesOk(t) && steps >= 1 && r < |t.node| && send != recv && d <= |t.ranks| / 4
    requires i0 == EntryCount(|t.ranks|, d, steps) && Filled(t, steps, r, send[..], recv[..], i0)
    modifies send, recv
    ensures i == EntryCount(|t.ranks|, d + 1, steps) && Filled(t, steps, r, send[..], recv[..], i)
  {
    hide TablesOk, SendAt, RecvAt, Filled, Schedule, Offsets, From, NextIndex, Deltas4;
    TablesShape(t);
    var nNodes := |t.ranks|;
    var deltas := Deltas4(nNodes, d);
    ghost var done := Offsets(nNodes, d);
    RoundStart(nNodes, d);
    i := i0;
    var index := 0;
    while index < 4
      invariant index <= 4 && done + From(deltas, index) == Offsets(nNodes, d + 1)
      invariant i == |done| * steps && Filled(t, steps, r, send[..], recv[..], i)
      decreases 4 - index
    {
      RoundStep(nNodes, d, done, index, steps);
      FillOffset(t, steps, r, deltas[index], send, recv, i, |done|);
      done := done + [deltas[index]];
      i := i + steps;
      index := NextIndex(deltas, index);
    }
    RoundEnd(deltas, done);
  }

  lemma RoundStart(n: nat, d: nat)
    requires n >= 1 && d <= n / 4
    ensures Offsets(n, d) + From(Deltas4(n, d), 0) == Offsets(n, d + 1)
  {
  }

  lemma RoundStep(n: nat, d: nat, done: seq<nat>, index: nat, steps: nat)
    requires n >= 1 && d <= n / 4 && index < 4 && done + From(Deltas4(n, d), index) == Offsets(n, d + 1)
    ensures var deltas := Deltas4(n, d);
      && |done| < n && |done| < |Schedule(n)| && Schedule(n)[|done|] == deltas[index] < n
      && done + [deltas[index]] + From(deltas, NextIndex(deltas, index)) == Offsets(n, d + 1)
      && (|done| + 1) * steps == |done| * steps + steps
  {
    hide NextIndex, Deltas4;
    var deltas := Deltas4(n, d);
    var rest := From(deltas, NextIndex(deltas, index));
    assert From(deltas, index) == [deltas[index]] + rest;
    assert done + [deltas[index]] + rest == done + ([deltas[index]] + rest);
    hide From;
    EveryOffsetOnce(n);
    OffsetsPrefix(n, d + 1, n / 4 + 1);
    hide Offsets;
    assert Schedule(n)[|done|] == Offsets(n, d + 1)[|done|] == deltas[index];
    assert Schedule(n)[|done|] in Schedule(n);
  }

  lemma RoundEnd(deltas: seq<nat>, done: seq<nat>)
    requires |deltas| == 4
    ensures done + From(deltas, 4) == done
  {
  }

  /** The construction of p2pSendOrder and p2pRecvOrder for rank `r`: both arrays are filled exactly. */
  method BuildOrder(t: Tables, steps: nat, r: nat) returns (send: array<int>, recv: array<int>)
    requires TablesOk(t) && steps >= 1 && r < |t.node|
    ensures fresh(send) && fresh(recv) && send.Length == recv.Length == |t.ranks| * steps
    ensures Filled(t, steps, r, send[..], recv[..], |t.ranks| * steps)
  {
    hide TablesOk, SendAt, RecvAt;
    TablesShape(t);
    var nNodes := |t.ranks|;
    MulNonNeg(nNodes, steps);
    AllEntries(nNodes, steps);
    hide EntryCount;
    send, recv := new int[nNodes * steps], new int[nNodes * steps];
    var i := 0;
    assert Filled(t, steps, r, send[..], recv[..], 0);
    hide Filled;
    for d := 0 to nNodes / 4 + 1
      invariant fresh(send) && fresh(recv) && send != recv
      invariant i == EntryCount(nNodes, d, steps) && Filled(t, steps, r, send[..], recv[..], i)
    {
      i := FillRound(t, steps, r, d, send, recv, i);
    }
    assert i == send.Length;
  }

  // ---------------------------------------------------------------- the node tables

  /** The ranks below `r` on node `m`, in order. */
  function RanksOn(node: seq<nat>, m: nat, r: nat): seq<nat>
    requires r <= |node|
  {
    if r == 0 then [] else RanksOn(node, m, r - 1) + (if node[r - 1] == m then [r - 1] else [])
  }

  lemma {:induction false} RanksOnMono(node: seq<nat>, m: nat, a: nat, b: nat)
    requires a <= b <= |node|
    ensures RanksOn(node, m, a) <= RanksOn(node, m, b)
  {
    if a < b { RanksOnMono(node, m, a, b - 1); }
  }

  lemma {:induction false} RanksOnMembers(node: seq<nat>, m: nat, r: nat, k: nat)
    requires r <= |node| && k < |RanksOn(node, m, r)|
    ensures RanksOn(node, m, r)[k] < r && node[RanksOn(node, m, r)[k]] == m
    ensures |RanksOn(node, m, RanksOn(node, m, r)[k])| == k
  {
    if k < |RanksOn(node, m, r - 1)| { RanksOnMembers(node, m, r - 1, k); }
  }

  lemma RanksOnNone(node: seq<nat>, m: nat)
    ensures RanksOn(node, m, 0) == []
  {
  }

  lemma RanksOnNext(node: seq<nat>, m: nat, r: nat)
    requires r < |node|
    ensures RanksOn(node, m, r + 1) == RanksOn(node, m, r) + (if node[r] == m then [r] else [])
  {
  }

  /** The first loop: number the ranks of every node. */
  method NumberRanks(rankToNode: seq<nat>, nNodes: nat) returns (local: seq<nat>, counts: seq<nat>)
    requires forall r :: 0 <= r < |rankToNode| ==> rankToNode[r] < nNodes
    ensures |local| == |rankToNode| && |counts| == nNodes
    ensures forall m :: 0 <= m < nNodes ==> counts[m] == |RanksOn(rankToNode, m, |rankToNode|)|
    ensures forall k :: 0 <= k < |local| ==> local[k] == |RanksOn(rankToNode, rankToNode[k], k)|
  {
    hide RanksOn;
    counts := seq(nNodes, _ => 0);
    local := [];
    forall m: nat ensures |RanksOn(rankToNode, m, 0)| == 0 { RanksOnNone(rankToNode, m); }
    for r := 0 to |rankToNode|
      invariant |local| == r && |counts| == nNodes
      invariant forall m :: 0 <= m < nNodes ==> counts[m] == |RanksOn(rankToNode, m, r)|
      invariant forall k :: 0 <= k < r ==> local[k] == |RanksOn(rankToNode, rankToNode[k], k)|
    {
      var node := rankToNode[r];
      forall m: nat ensures |RanksOn(rankToNode, m, r + 1)| == |RanksOn(rankToNode, m, r)| + (if m == node then 1 else 0) {
        RanksOnNext(rankToNode, m, r);
      }
      local := local + [counts[node]];
      counts := counts[node := counts[node] + 1];
    }
  }

  /** The last loop: list the ranks of every node. */
  method ListRanks(rankToNode: seq<nat>, nNodes: nat) returns (ranks: seq<seq<nat>>)
    requires forall r :: 0 <= r < |rankToNode| ==> rankToNode[r] < nNodes
    ensures |ranks| == nNodes
    ensures forall m :: 0 <= m < nNodes ==> ranks[m] == RanksOn(rankToNode, m, |rankToNode|)
  {
    ranks := seq(nNodes, _ => []);
    for r := 0 to |rankToNode|
      invariant |ranks| == nNodes
      invariant forall m :: 0 <= m < nNodes ==> ranks[m] == RanksOn(rankToNode, m, r)
    {
      var node := rankToNode[r];
      ranks := ranks[node := ranks[node] + [r]];
    }
  }

  /** A rank is listed behind the ranks of its node before it. */
  lemma RankIsListed(rankToNode: seq<nat>, r: nat)
    requires r < |rankToNode|
    ensures var list, at := RanksOn(rankToNode, rankToNode[r], |rankToNode|), |RanksOn(rankToNode, rankToNode[r], r)|;
      at < |list| && list[at] == r
  {
    RanksOnMono(rankToNode, rankToNode[r], r + 1, |rankToNode|);
  }

  lemma TablesAreOk(rankToNode: seq<nat>, local: seq<nat>, ranks: seq<seq<nat>>)
    requires |ranks| >= 1 && (forall r :: 0 <= r < |rankToNode| ==> rankToNode[r] < |ranks|) && |local| == |rankToNode|
    requires forall m :: 0 <= m < |ranks| ==> ranks[m] == RanksOn(rankToNode, m, |rankToNode|)
    requires forall k :: 0 <= k < |local| ==> local[k] == |RanksOn(rankToNode, rankToNode[k], k)|
    ensures TablesOk(Tables(rankToNode, local, ranks))
  {
    hide RanksOn;
    var n := |rankToNode|;
    forall r | 0 <= r < n ensures local[r] < |ranks[rankToNode[r]]| && ranks[rankToNode[r]][local[r]] == r {
      RankIsListed(rankToNode, r);
    }
    forall m, k | 0 <= m < |ranks| && 0 <= k < |ranks[m]|
      ensures ranks[m][k] < n && rankToNode[ranks[m][k]] == m && local[ranks[m][k]] == k
    {
      RanksOnMembers(rankToNode, m, n, k);
    }
  }

  /** The loops that number the ranks of every node, find the largest node, and list the ranks. */
  method BuildTables(rankToNode: seq<nat>, nNodes: nat) returns (t: Tables, maxLocalRanks: nat)
    requires nNodes >= 1 && forall r :: 0 <= r < |rankToNode| ==> rankToNode[r] < nNodes
    ensures TablesOk(t) && t.node == rankToNode && |t.ranks| == nNodes
    ensures forall m :: 0 <= m < nNodes ==> |t.ranks[m]| <= maxLocalRanks
    ensures maxLocalRanks == 0 || exists m :: 0 <= m < nNodes && |t.ranks[m]| == maxLocalRanks
  {
    hide RanksOn;
    var local, counts := NumberRanks(rankToNode, nNodes);
    maxLocalRanks := 0;
    for m := 0 to nNodes
      invariant forall k :: 0 <= k < m ==> counts[k] <= maxLocalRanks
      invariant maxLocalRanks == 0 || exists k :: 0 <= k < m && counts[k] == maxLocalRanks
    {
      if maxLocalRanks < counts[m] { maxLocalRanks := counts[m]; }
    }
    var ranks := ListRanks(rankToNode, nNodes);
    t := Tables(rankToNode, local, ranks);
    TablesAreOk(rankToNode, local, ranks);
  }

  /** The order arrays of every rank, from the node of every rank: with the steps the code uses, SendsOnce and OrdersMatch apply. */
  lemma StepsSuffice(t: Tables, maxLocalRanks: nat)
    requires maxLocalRanks >= 1 && forall m :: 0 <= m < |t.ranks| ==> |t.ranks[m]| <= maxLocalRanks
    ensures StepsOk(t, AlignPower(maxLocalRanks, 8))
  {
  }

  /** From the node of every rank to the orders of rank `r`: tables, steps, and both arrays filled as OrdersMatch and SendsOnce describe. */
  method P2pOrders(rankToNode: seq<nat>, nNodes: nat, r: nat) returns (t: Tables, steps: nat, send: array<int>, recv: array<int>)
    requires r < |rankToNode| && nNodes >= 1 && forall k :: 0 <= k < |rankToNode| ==> rankToNode[k] < nNodes
    ensures TablesOk(t) && t.node == rankToNode && |t.ranks| == nNodes && StepsOk(t, steps) && (steps % 8 == 0 || 8 % steps == 0)
    ensures send.Length == recv.Length == nNodes * steps && Filled(t, steps, r, send[..], recv[..], nNodes * steps)
  {
    hide SendAt, RecvAt;
    var maxLocalRanks;
    t, maxLocalRanks := BuildTables(rankToNode, nNodes);
    assert |t.ranks[t.node[r]]| >= 1;
    StepsSuffice(t, maxLocalRanks);
    AlignsToEight(maxLocalRanks);
    steps := AlignPower(maxLocalRanks, 8);
    send, recv := BuildOrder(t, steps, r);
  }
}
