/**
 The barrier of src/bootstrap.cc (bootstrapIntraNodeBarrier), repeated any number of times with one tag,
 over connections that may arrive in any order: a receiver that accepts a connection it does not expect
 keeps it in a queue. Ranks run asynchronously; other traffic with other tags may arrive at any time.
 */
module Barrier {
  import opened Arith
  import opened Powers

  /** Who connected, and with which tag. */
  datatype Conn = Conn(peer: nat, tag: int)

  // ---------------------------------------------------------------- the queue of unexpected connections

  /** The queue without its first occurrence of `c`. */
  function Without(queue: seq<Conn>, c: Conn): seq<Conn> {
    if queue == [] then [] else if queue[0] == c then queue[1..] else [queue[0]] + Without(queue[1..], c)
  }

  lemma {:induction false} WithoutCounts(queue: seq<Conn>, c: Conn)
    ensures multiset(Without(queue, c)) == if c in queue then multiset(queue) - multiset{c} else multiset(queue)
  {
    if queue != [] {
      assert queue == [queue[0]] + queue[1..];
      if queue[0] != c { WithoutCounts(queue[1..], c); }
    }
  }

  lemma {:induction false} WithoutAt(queue: seq<Conn>, c: Conn, i: nat)
    requires i < |queue| && queue[i] == c && c !in queue[..i]
    ensures Without(queue, c) == queue[..i] + queue[i + 1..]
  {
    if i > 0 {
      var rest := queue[1..];
      assert queue[0] == queue[..i][0] && rest[..i - 1] == queue[..i][1..];
      WithoutAt(rest, c, i - 1);
    }
  }

  lemma {:induction false} WithoutAbsent(queue: seq<Conn>, c: Conn)
    requires c !in queue
    ensures Without(queue, c) == queue
  {
    if queue != [] { WithoutAbsent(queue[1..], c); }
  }

  /** unexpectedDequeue: look for a connection and unlink it. */
  method UnexpectedDequeue(queue: seq<Conn>, peer: nat, tag: int) returns (found: bool, queue': seq<Conn>)
    ensures found <==> Conn(peer, tag) in queue
    ensures queue' == Without(queue, Conn(peer, tag))
  {
    hide Without;
    var i := 0;
    while i < |queue|
      invariant 0 <= i <= |queue| && Conn(peer, tag) !in queue[..i]
    {
      if queue[i].peer == peer && queue[i].tag == tag {
        WithoutAt(queue, Conn(peer, tag), i);
        return true, queue[..i] + queue[i + 1..];
      }
      i := i + 1;
    }
    WithoutAbsent(queue, Conn(peer, tag));
    return false, queue;
  }

  // ---------------------------------------------------------------- the machine

  /** Where a rank is: outside any barrier, about to send, about to search the queue, or accepting connections. */
  datatype Stage = Out | Send | Find | Accept

  /** `bar` barriers entered so far; inside one, the round. */
  datatype Rank = Rank(bar: nat, round: nat, stage: Stage)

  datatype Net = Net(ranks: seq<Rank>, pending: seq<multiset<Conn>>, unexpected: seq<seq<Conn>>)

  datatype Config = Config(n: nat, tag: int)

  datatype Event =
    | Enter(r: nat)
    | DoSend(r: nat)
    | DoFind(r: nat)
    | DoAccept(r: nat, conn: Conn)
    | Arrive(r: nat, conn: Conn)    // other traffic

  function Src(g: Config, r: nat, round: nat): (s: nat)
    requires r < g.n && Pow2(round) < g.n
    ensures s < g.n
  {
    (r - Pow2(round) + g.n) % g.n
  }

  function Dst(g: Config, r: nat, round: nat): (s: nat)
    requires r < g.n && Pow2(round) < g.n
    ensures s < g.n
  {
    (r + Pow2(round)) % g.n
  }

  predicate Shaped(g: Config, s: Net) { g.n >= 1 && |s.ranks| == |s.pending| == |s.unexpected| == g.n }

  predicate Inside(g: Config, k: Rank) { k.stage != Out && Pow2(k.round) < g.n }

  predicate Enabled(g: Config, s: Net, e: Event)
    requires Shaped(g, s)
  {
    match e
    case Enter(r) => r < g.n && s.ranks[r].stage == Out
    case DoSend(r) => r < g.n && s.ranks[r].stage == Send && Inside(g, s.ranks[r])
    case DoFind(r) => r < g.n && s.ranks[r].stage == Find && Inside(g, s.ranks[r])
    case DoAccept(r, conn) => r < g.n && s.ranks[r].stage == Accept && Inside(g, s.ranks[r]) && conn in s.pending[r]
    case Arrive(r, conn) => r < g.n && conn.tag != g.tag
  }

  /** The next round, or out of the barrier. */
  function Advanced(g: Config, k: Rank): Rank {
    if Pow2(k.round + 1) < g.n then Rank(k.bar, k.round + 1, Send) else Rank(k.bar, 0, Out)
  }

  function Apply(g: Config, s: Net, e: Event): (s': Net)
    requires Shaped(g, s) && Enabled(g, s, e)
    ensures Shaped(g, s')
  {
    match e
    case Enter(r) => s.(ranks := s.ranks[r := Rank(s.ranks[r].bar + 1, 0, if g.n == 1 then Out else Send)])
    case DoSend(r) =>
      var d := Dst(g, r, s.ranks[r].round);
      s.(pending := s.pending[d := s.pending[d] + multiset{Conn(r, g.tag)}], ranks := s.ranks[r := s.ranks[r].(stage := Find)])
    case DoFind(r) =>
      var c := Conn(Src(g, r, s.ranks[r].round), g.tag);
      if c in s.unexpected[r] then
        s.(unexpected := s.unexpected[r := Without(s.unexpected[r], c)], ranks := s.ranks[r := Advanced(g, s.ranks[r])])
      else s.(ranks := s.ranks[r := s.ranks[r].(stage := Accept)])
    case DoAccept(r, conn) =>
      var left := s.pending[r := s.pending[r] - multiset{conn}];
      if conn == Conn(Src(g, r, s.ranks[r].round), g.tag) then s.(pending := left, ranks := s.ranks[r := Advanced(g, s.ranks[r])])
      else s.(pending := left, unexpected := s.unexpected[r := s.unexpected[r] + [conn]])
    case Arrive(r, conn) => s.(pending := s.pending[r := s.pending[r] + multiset{conn}])
  }

  function Start(g: Config): Net {
    Net(seq(g.n, _ => Rank(0, 0, Out)), seq(g.n, _ => multiset{}), seq(g.n, _ => []))
  }

  ghost predicate Run(g: Config, trace: seq<Net>, events: seq<Event>) {
    && g.n >= 1 && |trace| == |events| + 1 && trace[0] == Start(g)
    && (forall i :: 0 <= i < |events| ==>
          Shaped(g, trace[i]) && Enabled(g, trace[i], events[i]) && trace[i + 1] == Apply(g, trace[i], events[i]))
  }

  // ---------------------------------------------------------------- the invariant

  /** Barriers whose round `j` a rank has sent, and received. */
  function Sent(k: Rank, j: nat): int {
    k.bar - if k.stage != Out && (k.round < j || (k.round == j && k.stage == Send)) then 1 else 0
  }

  function Got(k: Rank, j: nat): int { k.bar - if k.stage != Out && k.round <= j then 1 else 0 }

  /** Barriers a rank has returned from. */
  function Left(k: Rank): int { if k.stage == Out then k.bar else k.bar - 1 }

  /** Connections made to `r` and not yet used. */
  function Waiting(s: Net, r: nat): multiset<Conn>
    requires r < |s.pending| && r < |s.unexpected|
  {
    s.pending[r] + multiset(s.unexpected[r])
  }

  /** Every message of round `j` to `r` is used, or waiting. */
  predicate Conserved(g: Config, s: Net, r: nat, j: nat)
    requires Shaped(g, s) && r < g.n && Pow2(j) < g.n
  {
    Waiting(s, r)[Conn(Src(g, r, j), g.tag)] + Got(s.ranks[r], j) == Sent(s.ranks[Src(g, r, j)], j)
  }

  function Back(g: Config, r: nat, d: nat): (q: nat)
    requires r < g.n
    ensures q < g.n
  {
    (r - d) % g.n
  }

  /** Inside a barrier, the last 2^round ranks have entered it; and every rank has entered every barrier `r` has left. */
  ghost predicate Knows(g: Config, s: Net, r: nat)
    requires Shaped(g, s) && r < g.n
  {
    && (s.ranks[r].stage != Out ==> forall d: nat :: d < Pow2(s.ranks[r].round) ==> s.ranks[Back(g, r, d)].bar >= s.ranks[r].bar)
    && (forall q :: 0 <= q < g.n ==> s.ranks[q].bar >= Left(s.ranks[r]))
  }

  ghost predicate Inv(g: Config, s: Net) {
    && Shaped(g, s)
    && (forall r :: 0 <= r < g.n ==> s.ranks[r].stage != Out ==> s.ranks[r].bar >= 1 && Inside(g, s.ranks[r]))
    && (forall r: nat, j: nat :: r < g.n && Pow2(j) < g.n ==> Conserved(g, s, r, j))
    && (forall r :: 0 <= r < g.n ==> Knows(g, s, r))
    && (forall r: nat :: r < g.n && s.ranks[r].stage == Accept ==> NotQueued(g, s, r))
  }

  /** While accepting, the connection looked for is not in the queue. */
  predicate NotQueued(g: Config, s: Net, r: nat)
    requires Shaped(g, s) && r < g.n
  {
    Pow2(s.ranks[r].round) < g.n ==> Conn(Src(g, r, s.ranks[r].round), g.tag) !in s.unexpected[r]
  }

  // ---------------------------------------------------------------- ranks around the circle

  /** Powers of two below n are different offsets. */
  lemma {:induction false} Pow2Distinct(i: nat, j: nat)
    requires Pow2(i) == Pow2(j)
    ensures i == j
  {
    if i < j { Pow2Mono(i, j); }
    if j < i { Pow2Mono(j, i); }
  }

  lemma DstIs(g: Config, r: nat, j: nat)
    requires r < g.n && Pow2(j) < g.n
    ensures Dst(g, r, j) == if r + Pow2(j) < g.n then r + Pow2(j) else r + Pow2(j) - g.n
  {
    var x := r + Pow2(j);
    if x < g.n { DivUnique(x, g.n, 0, x); } else { DivUnique(x, g.n, 1, x - g.n); }
  }

  lemma SrcIs(g: Config, r: nat, j: nat)
    requires r < g.n && Pow2(j) < g.n
    ensures Src(g, r, j) == if r < Pow2(j) then r - Pow2(j) + g.n else r - Pow2(j)
  {
    var x := r - Pow2(j) + g.n;
    if r < Pow2(j) { DivUnique(x, g.n, 0, x); } else { DivUnique(x, g.n, 1, x - g.n); }
  }

  /** Only the rank that is 2^j before r sends to r in round j. */
  lemma SrcOfDst(g: Config, q: nat, i: nat, r: nat, j: nat)
    requires q < g.n && r < g.n && Pow2(i) < g.n && Pow2(j) < g.n
    ensures Dst(g, q, i) == r && Src(g, r, j) == q ==> i == j
    ensures i == j ==> (Dst(g, q, i) == r <==> Src(g, r, j) == q)
  {
    hide Src, Dst, Pow2;
    DstIs(g, q, i);
    SrcIs(g, r, j);
    if Pow2(i) == Pow2(j) { Pow2Distinct(i, j); }
  }

  /** Going back in two steps. */
  lemma BackAdds(g: Config, r: nat, a: nat, b: nat)
    requires r < g.n
    ensures Back(g, Back(g, r, a), b) == Back(g, r, a + b)
  {
    DivModFacts(r - a, g.n);
    ModShift(r - a - b, g.n, -((r - a) / g.n));
  }

  lemma SrcIsBack(g: Config, r: nat, j: nat)
    requires r < g.n && Pow2(j) < g.n
    ensures Src(g, r, j) == Back(g, r, Pow2(j))
  {
    ModShift(r - Pow2(j), g.n, 1);
  }

  /** n steps back reach everybody. */
  lemma BackReaches(g: Config, r: nat, q: nat) returns (d: nat)
    requires r < g.n && q < g.n
    ensures d < g.n && Back(g, r, d) == q
  {
    d := if q <= r then r - q else r + g.n - q;
    if q <= r { DivUnique(r - d, g.n, 0, q); } else { DivUnique(r - d, g.n, -1, q); }
  }

  // ---------------------------------------------------------------- steps

  lemma EnterKeeps(g: Config, s: Net, r: nat)
    requires Inv(g, s) && Enabled(g, s, Enter(r))
    ensures Inv(g, Apply(g, s, Enter(r)))
  {
    hide Src, Pow2, Back;
    var s' := Apply(g, s, Enter(r));
    assert Pow2(0) == 1 by { Pow2Zero(); }
    forall q: nat, j: nat | q < g.n && Pow2(j) < g.n ensures Conserved(g, s', q, j) { assert Conserved(g, s, q, j); }
    forall q | 0 <= q < g.n ensures Knows(g, s', q) {
      assert Knows(g, s, q);
      if q == r { BackZero(g, r); }
    }
    forall q: nat | q < g.n && s'.ranks[q].stage == Accept ensures NotQueued(g, s', q) { assert NotQueued(g, s, q); }
  }

  lemma Pow2Zero()
    ensures Pow2(0) == 1
  {
  }

  lemma BackZero(g: Config, r: nat)
    requires r < g.n
    ensures Back(g, r, 0) == r
  {
    DivUnique(r, g.n, 0, r);
  }

  /** A step that changes no count of barriers keeps what ranks know. */
  lemma KnowsKept(g: Config, s: Net, s': Net, r: nat)
    requires Shaped(g, s) && Shaped(g, s') && r < g.n && Knows(g, s, r)
    requires forall q :: 0 <= q < g.n ==> s'.ranks[q].bar == s.ranks[q].bar
    requires s'.ranks[r].round == s.ranks[r].round && (s'.ranks[r].stage == Out <==> s.ranks[r].stage == Out)
    ensures Knows(g, s', r)
  {
    hide Pow2, Back;
  }

  lemma SendKeeps(g: Config, s: Net, r: nat)
    requires Inv(g, s) && Enabled(g, s, DoSend(r))
    ensures Inv(g, Apply(g, s, DoSend(r)))
  {
    hide Src, Dst, Pow2, Back, Knows;
    var s' := Apply(g, s, DoSend(r));
    var i := s.ranks[r].round;
    var d := Dst(g, r, i);
    forall q: nat, j: nat | q < g.n && Pow2(j) < g.n ensures Conserved(g, s', q, j) {
      assert Conserved(g, s, q, j);
      SrcOfDst(g, r, i, q, j);
    }
    forall q | 0 <= q < g.n ensures Knows(g, s', q) { KnowsKept(g, s, s', q); }
    forall q: nat | q < g.n && s'.ranks[q].stage == Accept ensures NotQueued(g, s', q) { assert NotQueued(g, s, q); }
  }

  lemma ArriveKeeps(g: Config, s: Net, r: nat, conn: Conn)
    requires Inv(g, s) && Enabled(g, s, Arrive(r, conn))
    ensures Inv(g, Apply(g, s, Arrive(r, conn)))
  {
    hide Src, Pow2, Back, Knows;
    var s' := Apply(g, s, Arrive(r, conn));
    forall q: nat, j: nat | q < g.n && Pow2(j) < g.n ensures Conserved(g, s', q, j) { assert Conserved(g, s, q, j); }
    forall q | 0 <= q < g.n ensures Knows(g, s', q) { KnowsKept(g, s, s', q); }
    forall q: nat | q < g.n && s'.ranks[q].stage == Accept ensures NotQueued(g, s', q) { assert NotQueued(g, s, q); }
  }

  /** A message of the current round proves that its sender is at least as far. */
  lemma SenderIsAsFar(g: Config, s: Net, r: nat)
    requires Inv(g, s) && r < g.n && Inside(g, s.ranks[r]) && Conn(Src(g, r, s.ranks[r].round), g.tag) in Waiting(s, r)
    ensures var q, k := s.ranks[Src(g, r, s.ranks[r].round)], s.ranks[r];
      q.bar >= k.bar && (q.bar > k.bar || q.stage == Out || q.round >= k.round)
  {
    hide Src, Pow2, Knows;
    assert Conserved(g, s, r, s.ranks[r].round);
  }

  /** So after the round, twice as many ranks are known to have entered. */
  lemma LearnsMore(g: Config, s: Net, r: nat, d: nat)
    requires Inv(g, s) && r < g.n && Inside(g, s.ranks[r]) && Conn(Src(g, r, s.ranks[r].round), g.tag) in Waiting(s, r)
    requires d < 2 * Pow2(s.ranks[r].round)
    ensures s.ranks[Back(g, r, d)].bar >= s.ranks[r].bar
  {
    hide Src, Back, Pow2;
    var j := s.ranks[r].round;
    var src := Src(g, r, j);
    assert Knows(g, s, r) && Knows(g, s, src);
    if d >= Pow2(j) {
      SenderIsAsFar(g, s, r);
      SrcIsBack(g, r, j);
      BackAdds(g, r, Pow2(j), d - Pow2(j));
      if s.ranks[src].bar == s.ranks[r].bar && s.ranks[src].stage != Out { Pow2Mono(j, s.ranks[src].round); }
    }
  }

  /** The message is used and the rank goes on. */
  lemma AdvanceKeeps(g: Config, s: Net, s': Net, r: nat)
    requires Inv(g, s) && Shaped(g, s') && r < g.n && Inside(g, s.ranks[r]) && s.ranks[r].stage in {Find, Accept}
    requires Conn(Src(g, r, s.ranks[r].round), g.tag) in Waiting(s, r)
    requires s'.ranks == s.ranks[r := Advanced(g, s.ranks[r])]
    requires forall q :: 0 <= q < g.n && q != r ==> Waiting(s', q) == Waiting(s, q) && s'.unexpected[q] == s.unexpected[q]
    requires Waiting(s', r) == Waiting(s, r) - multiset{Conn(Src(g, r, s.ranks[r].round), g.tag)}
    ensures Inv(g, s')
  {
    hide Src, Back, Pow2, Waiting;
    forall q: nat, j: nat | q < g.n && Pow2(j) < g.n ensures Conserved(g, s', q, j) { AdvanceConserves(g, s, s', r, q, j); }
    forall q | 0 <= q < g.n ensures Knows(g, s', q) {
      if q == r { AdvanceKnows(g, s, s', r); } else {
        assert Knows(g, s, q);
      }
    }
    forall q: nat | q < g.n && s'.ranks[q].stage == Accept ensures NotQueued(g, s', q) { assert NotQueued(g, s, q); }
  }

  /** Advancing uses one message, of the round, and sends none. */
  lemma AdvanceCounts(g: Config, k: Rank, j: nat)
    requires Inside(g, k) && k.stage in {Find, Accept} && Pow2(k.round) < g.n && Pow2(j) < g.n
    ensures Sent(Advanced(g, k), j) == Sent(k, j) && Got(Advanced(g, k), j) == Got(k, j) + (if j == k.round then 1 else 0)
  {
    hide Pow2;
    LastRound(g, k.round, j);
  }

  lemma AdvanceConserves(g: Config, s: Net, s': Net, r: nat, q: nat, j: nat)
    requires Inv(g, s) && Shaped(g, s') && r < g.n && Inside(g, s.ranks[r]) && s.ranks[r].stage in {Find, Accept}
    requires Conn(Src(g, r, s.ranks[r].round), g.tag) in Waiting(s, r)
    requires s'.ranks == s.ranks[r := Advanced(g, s.ranks[r])]
    requires forall q :: 0 <= q < g.n && q != r ==> Waiting(s', q) == Waiting(s, q)
    requires Waiting(s', r) == Waiting(s, r) - multiset{Conn(Src(g, r, s.ranks[r].round), g.tag)}
    requires q < g.n && Pow2(j) < g.n
    ensures Conserved(g, s', q, j)
  {
    hide Src, Back, Pow2, Waiting, Knows, Sent, Got, Advanced;
    var i := s.ranks[r].round;
    assert Conserved(g, s, q, j);
    hide Inv;
    AdvanceCounts(g, s.ranks[r], j);
    if q == r && i != j { SrcDiffers(g, r, i, j); }
  }

  /** Rounds beyond the last have offsets that are not below n. */
  lemma LastRound(g: Config, i: nat, j: nat)
    requires Pow2(i) < g.n && Pow2(j) < g.n
    ensures Pow2(i + 1) >= g.n ==> j <= i
  {
    if j > i { Pow2Mono(i + 1, j); }
  }

  lemma SrcDiffers(g: Config, r: nat, i: nat, j: nat)
    requires r < g.n && Pow2(i) < g.n && Pow2(j) < g.n && i != j
    ensures Src(g, r, i) != Src(g, r, j)
  {
    hide Src, Pow2;
    SrcIs(g, r, i);
    SrcIs(g, r, j);
    if Pow2(i) == Pow2(j) { Pow2Distinct(i, j); }
  }

  lemma AdvanceKnows(g: Config, s: Net, s': Net, r: nat)
    requires Inv(g, s) && Shaped(g, s') && r < g.n && Inside(g, s.ranks[r])
    requires Conn(Src(g, r, s.ranks[r].round), g.tag) in Waiting(s, r)
    requires s'.ranks == s.ranks[r := Advanced(g, s.ranks[r])]
    ensures Knows(g, s', r)
  {
    hide Src, Back, Pow2, Waiting;
    var j := s.ranks[r].round;
    assert Pow2(j + 1) == 2 * Pow2(j) by { Pow2Next(j); }
    forall d: nat | d < 2 * Pow2(j) ensures s'.ranks[Back(g, r, d)].bar >= s.ranks[r].bar { LearnsMore(g, s, r, d); }
    assert Knows(g, s, r);
    if Pow2(j + 1) >= g.n {
      forall q | 0 <= q < g.n ensures s'.ranks[q].bar >= s.ranks[r].bar { var d := BackReaches(g, r, q); }
    }
  }

  lemma Pow2Next(j: nat)
    ensures Pow2(j + 1) == 2 * Pow2(j)
  {
  }

  lemma QueueUsed(s: Net, s': Net, r: nat, c: Conn)
    requires r < |s.pending| == |s'.pending| && r < |s.unexpected| == |s'.unexpected| && c in s.unexpected[r]
    requires s'.pending == s.pending && s'.unexpected == s.unexpected[r := Without(s.unexpected[r], c)]
    ensures c in Waiting(s, r) && Waiting(s', r) == Waiting(s, r) - multiset{c}
  {
    WithoutCounts(s.unexpected[r], c);
  }

  lemma FindKeeps(g: Config, s: Net, r: nat)
    requires Inv(g, s) && Enabled(g, s, DoFind(r))
    ensures Inv(g, Apply(g, s, DoFind(r)))
  {
    hide Src, Pow2, Back, Knows, Advanced, Without;
    var s' := Apply(g, s, DoFind(r));
    var c := Conn(Src(g, r, s.ranks[r].round), g.tag);
    if c in s.unexpected[r] {
      QueueUsed(s, s', r, c);
      AdvanceKeeps(g, s, s', r);
    } else {
      forall q: nat, j: nat | q < g.n && Pow2(j) < g.n ensures Conserved(g, s', q, j) { assert Conserved(g, s, q, j); }
      forall q | 0 <= q < g.n ensures Knows(g, s', q) { KnowsKept(g, s, s', q); }
      forall q: nat | q < g.n && s'.ranks[q].stage == Accept ensures NotQueued(g, s', q) {
        if q != r { assert NotQueued(g, s, q); }
      }
    }
  }

  lemma AcceptKeeps(g: Config, s: Net, r: nat, conn: Conn)
    requires Inv(g, s) && Enabled(g, s, DoAccept(r, conn))
    ensures Inv(g, Apply(g, s, DoAccept(r, conn)))
  {
    hide Src, Pow2, Back, Knows, Advanced;
    var s' := Apply(g, s, DoAccept(r, conn));
    if conn == Conn(Src(g, r, s.ranks[r].round), g.tag) {
      AdvanceKeeps(g, s, s', r);
    } else {
      assert Waiting(s', r) == Waiting(s, r);
      forall q: nat, j: nat | q < g.n && Pow2(j) < g.n ensures Conserved(g, s', q, j) { assert Conserved(g, s, q, j); }
      forall q | 0 <= q < g.n ensures Knows(g, s', q) { KnowsKept(g, s, s', q); }
      forall q: nat | q < g.n && s'.ranks[q].stage == Accept ensures NotQueued(g, s', q) { assert NotQueued(g, s, q); }
    }
  }

  lemma StartInv(g: Config)
    requires g.n >= 1
    ensures Inv(g, Start(g))
  {
    hide Src, Pow2, Back;
    var s := Start(g);
    forall r: nat, j: nat | r < g.n && Pow2(j) < g.n ensures Conserved(g, s, r, j) {
      assert Waiting(s, r) == multiset{};
    }
  }

  lemma StepInv(g: Config, s: Net, e: Event)
    requires Inv(g, s) && Enabled(g, s, e)
    ensures Inv(g, Apply(g, s, e))
  {
    match e
    case Enter(r) => EnterKeeps(g, s, r);
    case DoSend(r) => SendKeeps(g, s, r);
    case DoFind(r) => FindKeeps(g, s, r);
    case DoAccept(r, conn) => AcceptKeeps(g, s, r, conn);
    case Arrive(r, conn) => ArriveKeeps(g, s, r, conn);
  }

  lemma {:induction false} RunInv(g: Config, trace: seq<Net>, events: seq<Event>, i: nat)
    requires Run(g, trace, events) && i < |trace|
    ensures Inv(g, trace[i])
  {
    hide Inv, Enabled, Apply;
    if i == 0 {
      StartInv(g);
    } else {
      RunInv(g, trace, events, i - 1);
      StepInv(g, trace[i - 1], events[i - 1]);
      assert trace[i - 1 + 1] == Apply(g, trace[i - 1], events[i - 1]);
    }
  }

  // ---------------------------------------------------------------- what the barrier promises

  /** In every run, whenever a rank has returned from k barriers every rank has entered k. */
  lemma NobodyLeavesEarly(g: Config, trace: seq<Net>, events: seq<Event>, i: nat, r: nat, q: nat)
    requires Run(g, trace, events) && i < |trace| && r < g.n && q < g.n
    ensures Shaped(g, trace[i]) && trace[i].ranks[q].bar >= Left(trace[i].ranks[r])
  {
    hide Run;
    RunInv(g, trace, events, i);
    assert Knows(g, trace[i], r);
  }

  predicate Moves(e: Event) { e.DoSend? || e.DoFind? || e.DoAccept? }

  /** Some rank that has not yet left `k` barriers can take a step. */
  ghost predicate SomeMove(g: Config, s: Net, k: nat)
    requires Shaped(g, s)
  {
    exists e :: Enabled(g, s, e) && Moves(e) && e.r < g.n && Left(s.ranks[e.r]) < k
  }

  /** How far a rank is. */
  predicate NotBehind(a: Rank, b: Rank) { a.stage == Out || a.bar > b.bar || (a.bar == b.bar && a.round >= b.round) }

  /** The rank that is least far of those that have not left `k` barriers. */
  lemma {:induction false} LeastFar(g: Config, s: Net, k: nat, m: nat) returns (found: bool, r: nat)
    requires Inv(g, s) && m <= g.n && forall q :: 0 <= q < g.n ==> s.ranks[q].bar >= k
    ensures found <==> exists q :: 0 <= q < m && Left(s.ranks[q]) < k
    ensures found ==> r < m && Left(s.ranks[r]) < k && forall q :: 0 <= q < m ==> NotBehind(s.ranks[q], s.ranks[r])
  {
    hide Conserved, Knows, NotQueued;
    if m == 0 {
      found, r := false, 0;
    } else {
      found, r := LeastFar(g, s, k, m - 1);
      if Left(s.ranks[m - 1]) < k && (!found || !NotBehind(s.ranks[m - 1], s.ranks[r])) {
        found, r := true, m - 1;
      }
    }
  }

  /** Once every rank has entered k barriers, some rank that has not left them can move until all have. */
  lemma SomebodyCanMove(g: Config, s: Net, k: nat, q: nat)
    requires Inv(g, s) && (forall p :: 0 <= p < g.n ==> s.ranks[p].bar >= k) && q < g.n && Left(s.ranks[q]) < k
    ensures SomeMove(g, s, k)
  {
    hide Src, Pow2, Knows;
    var found, r := LeastFar(g, s, k, g.n);
    var me := s.ranks[r];
    if me.stage == Send {
      assert Enabled(g, s, DoSend(r)) && Moves(DoSend(r));
    } else if me.stage == Find {
      assert Enabled(g, s, DoFind(r)) && Moves(DoFind(r));
    } else {
      var src := Src(g, r, me.round);
      assert Conserved(g, s, r, me.round) && NotQueued(g, s, r);
      assert NotBehind(s.ranks[src], me);
      if Sent(s.ranks[src], me.round) >= me.bar {
        var c := Conn(src, g.tag);
        assert c in s.pending[r];
        assert Enabled(g, s, DoAccept(r, c)) && Moves(DoAccept(r, c));
      } else {
        assert Enabled(g, s, DoSend(src)) && Moves(DoSend(src));
      }
    }
  }

  /** ... in every state of every run. */
  lemma BarrierNeverStuck(g: Config, trace: seq<Net>, events: seq<Event>, i: nat, k: nat, q: nat)
    requires Run(g, trace, events) && i < |trace| && q < g.n
    ensures Shaped(g, trace[i])
    ensures (forall p :: 0 <= p < g.n ==> trace[i].ranks[p].bar >= k) && Left(trace[i].ranks[q]) < k ==> SomeMove(g, trace[i], k)
  {
    hide Run, SomeMove, Left;
    RunInv(g, trace, events, i);
    if (forall p :: 0 <= p < g.n ==> trace[i].ranks[p].bar >= k) && Left(trace[i].ranks[q]) < k {
      SomebodyCanMove(g, trace[i], k, q);
    }
  }
}
