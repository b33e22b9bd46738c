/** The work FIFO over whole runs: no slot is overwritten early, and every channel runs its works in order. */
module WorkFifoSafety {
  import opened Arith
  import opened WorkFifo

  /** The depth is a power of two that leaves the rolling comparisons room. */
  predicate ValidDepth(depth: nat) {
    1 <= depth <= 0x4000_0000 && MODULUS % depth == 0
  }

  // ---------------------------------------------------------------- rolling counters

  /** Differences of residues wrap to the true difference, or to it plus the modulus. */
  lemma Difference(x: nat, y: nat)
    requires -0x8000_0000 <= x - y <= POSITIVE_MAX
    ensures (W32(x) - W32(y)) % MODULUS == if x < y then x - y + MODULUS else x - y
  {
    DivModFacts(x, MODULUS);
    DivModFacts(y, MODULUS);
    ModShift(x - y, MODULUS, y / MODULUS - x / MODULUS);
    DivUnique(x - y, MODULUS, if x < y then -1 else 0, if x < y then x - y + MODULUS else x - y);
  }

  /** The rolling comparison is the true one for counters less than half the range apart. */
  lemma RollingLessIsLess(x: nat, y: nat)
    requires -0x8000_0000 <= x - y <= POSITIVE_MAX
    ensures RollingLess32(W32(x), W32(y)) <==> x < y
  {
    hide W32;
    Difference(x, y);
  }

  lemma EarlierIsMin(x: nat, y: nat)
    requires x <= y + POSITIVE_MAX && y <= x + POSITIVE_MAX
    ensures Earlier(x, y) == if x <= y then x else y
  {
  }

  /** Polled counters that all lie in a window: ackdAll is the least over the channels still busy. */
  lemma {:induction false} AckdAllIsLeast(sent: nat, chanSent: seq<nat>, polled: seq<nat>, c: nat, lo: nat)
    requires c <= |chanSent| == |polled| && lo <= sent <= lo + POSITIVE_MAX
    requires forall k :: 0 <= k < c ==> lo <= polled[k] <= sent
    ensures lo <= AckdAll(sent, chanSent, polled, c) <= sent
    ensures forall k :: 0 <= k < c && !Quiesced(chanSent, polled, k) ==> AckdAll(sent, chanSent, polled, c) <= polled[k]
    ensures AckdAll(sent, chanSent, polled, c) != sent ==>
      exists k :: 0 <= k < c && !Quiesced(chanSent, polled, k) && AckdAll(sent, chanSent, polled, c) == polled[k]
  {
    hide Quiesced, Earlier;
    if c > 0 {
      AckdAllIsLeast(sent, chanSent, polled, c - 1, lo);
      EarlierIsMin(AckdAll(sent, chanSent, polled, c - 1), polled[c - 1]);
    }
  }

  lemma QuiescedIsEqual(chanSent: seq<nat>, polled: seq<nat>, c: nat)
    requires c < |chanSent| == |polled| && polled[c] <= chanSent[c] <= polled[c] + POSITIVE_MAX
    ensures Quiesced(chanSent, polled, c) <==> polled[c] == chanSent[c]
  {
  }

  /** The first works of a plan lie within one turn of the ring; slots are skipped only if they would not, up to the next turn. */
  lemma HeadFits<W>(depth: nat, plan: Plan<W>, sent: nat)
    requires depth >= 1 && 1 <= ChannelCount(plan) <= depth
    ensures var head := PlanHead(depth, plan, sent);
      && sent <= head < sent + depth && head % depth + ChannelCount(plan) <= depth
      && (head == sent <==> sent % depth + ChannelCount(plan) <= depth) && (head != sent ==> head % depth == 0)
  {
    hide ChannelCount;
    SkipFits(depth, ChannelCount(plan), sent);
  }

  lemma SkipFits(depth: nat, n: nat, sent: nat)
    requires 1 <= n <= depth
    ensures var up := (sent + depth - 1) - (sent + depth - 1) % depth;
      && ((sent + n - 1) % depth < sent % depth <==> sent % depth + n > depth)
      && (sent % depth + n > depth ==> sent < up < sent + depth && up % depth == 0)
  {
    ModRange(sent, depth);
    assert sent + (n - 1) == sent + n - 1;
    if sent % depth + n - 1 < depth {
      SameTurn(sent, depth, n - 1);
    } else {
      NextTurn(sent, depth, n - 1);
      TurnEnd(sent, depth);
    }
  }

  lemma ModRange(x: nat, d: nat)
    requires d >= 1
    ensures 0 <= x % d < d
  {
  }

  lemma SameTurn(x: nat, d: nat, y: nat)
    requires d >= 1 && x % d + y < d
    ensures (x + y) % d == x % d + y
  {
    DivModFacts(x, d);
    DivUnique(x + y, d, x / d, x % d + y);
  }

  lemma NextTurn(x: nat, d: nat, y: nat)
    requires d >= 1 && d <= x % d + y < 2 * d
    ensures (x + y) % d == x % d + y - d
  {
    DivModFacts(x, d);
    DivUnique(x + y, d, x / d + 1, x % d + y - d);
  }

  /** Rounding up to the next multiple. */
  lemma TurnEnd(x: nat, d: nat)
    requires d >= 1 && x % d >= 1
    ensures var up := (x + d - 1) - (x + d - 1) % d; up == x - x % d + d && up % d == 0
  {
    NextTurn(x, d, d - 1);
    DivModFacts(x, d);
    DivUnique(x - x % d + d, d, x / d + 1, 0);
  }

  // ---------------------------------------------------------------- the layout of a plan

  lemma {:induction false} LayoutMono<W>(plan: Plan<W>, a: nat, b: nat)
    requires a <= b <= |plan|
    ensures Below(plan, a) <= Below(plan, b) && Extra(plan, a) <= Extra(plan, b)
  {
    if a < b {
      LayoutMono(plan, a, b - 1);
    }
  }

  /** A plan's works get the slot numbers from head to head + WorkCount - 1. */
  lemma WorkIxInRange<W>(plan: Plan<W>, head: nat, c: nat, j: nat)
    requires c < |plan| && j < |plan[c]|
    ensures head <= WorkIx(plan, head, c, j) < head + WorkCount(plan)
    ensures Below(plan, c) < ChannelCount(plan)
  {
    LayoutMono(plan, c + 1, |plan|);
  }

  /** ... no two the same. */
  lemma WorkIxDistinct<W>(plan: Plan<W>, head: nat, c: nat, j: nat, c': nat, j': nat)
    requires c < |plan| && j < |plan[c]| && c' < |plan| && j' < |plan[c']|
    requires WorkIx(plan, head, c, j) == WorkIx(plan, head, c', j')
    ensures c == c' && j == j'
  {
    WorkIxInRange(plan, head, c, j);
    WorkIxInRange(plan, head, c', j');
    if c < c' {
      LayoutMono(plan, c + 1, c');
    } else if c' < c {
      LayoutMono(plan, c' + 1, c);
    }
  }

  /** The chain of a channel visits ever larger slot numbers. */
  lemma WorkIxIncreases<W>(plan: Plan<W>, head: nat, c: nat, j: nat)
    requires c < |plan| && j + 1 < |plan[c]|
    ensures WorkIx(plan, head, c, j) < WorkIx(plan, head, c, j + 1)
  {
    LayoutMono(plan, c + 1, |plan|);
  }

  /** Every write of a plan is the write of some work. */
  lemma {:induction false} WriteIsWork<W>(depth: nat, plan: Plan<W>, head: nat, n: nat, i: nat) returns (c: nat, j: nat)
    requires depth >= 1 && n <= |plan| && i < |PlanWrites(depth, plan, head, n)|
    ensures c < n && j < |plan[c]|
    ensures PlanWrites(depth, plan, head, n)[i] == Write(WorkIx(plan, head, c, j), SlotOf(depth, plan, head, c, j))
    ensures i == |PlanWrites(depth, plan, head, c)| + j
  {
    hide WorkIx, SlotOf;
    var before := |PlanWrites(depth, plan, head, n - 1)|;
    if i < before {
      c, j := WriteIsWork(depth, plan, head, n - 1, i);
    } else {
      c, j := n - 1, i - before;
    }
  }

  /** Every work of a plan is written. */
  lemma {:induction false} WorkIsWritten<W>(depth: nat, plan: Plan<W>, head: nat, n: nat, c: nat, j: nat) returns (i: nat)
    requires depth >= 1 && c < n <= |plan| && j < |plan[c]|
    ensures i < |PlanWrites(depth, plan, head, n)|
    ensures PlanWrites(depth, plan, head, n)[i] == Write(WorkIx(plan, head, c, j), SlotOf(depth, plan, head, c, j))
  {
    hide WorkIx, SlotOf;
    if c < n - 1 {
      i := WorkIsWritten(depth, plan, head, n - 1, c, j);
    } else {
      i := |PlanWrites(depth, plan, head, n - 1)| + j;
    }
  }

  lemma WritesDistinct<W>(depth: nat, plan: Plan<W>, head: nat, i: nat, i': nat)
    requires depth >= 1 && i < |PlanWrites(depth, plan, head, |plan|)| && i' < |PlanWrites(depth, plan, head, |plan|)|
    requires PlanWrites(depth, plan, head, |plan|)[i].ix == PlanWrites(depth, plan, head, |plan|)[i'].ix
    ensures i == i'
  {
    var c, j := WriteIsWork(depth, plan, head, |plan|, i);
    var c', j' := WriteIsWork(depth, plan, head, |plan|, i');
    WorkIxDistinct(plan, head, c, j, c', j');
  }

  /** Slot numbers less than a full turn apart use different slots. */
  lemma SlotsDiffer(depth: nat, a: nat, b: nat)
    requires depth >= 1 && a < b < a + depth
    ensures a % depth != b % depth
  {
    DivModFacts(a, depth);
    DivModFacts(b, depth);
    if a % depth == b % depth {
      var p, q := a / depth, b / depth;
      assert (p + 1) * depth == p * depth + depth;
      if q <= p {
        MulMono(q, p, depth);
        assert false;
      }
      MulMono(p + 1, q, depth);
      assert false;
    }
  }

  /** Masking a wrapped counter gives the same slot as masking the true one. */
  lemma SlotSurvivesWrap(depth: nat, x: nat)
    requires ValidDepth(depth)
    ensures W32(x) % depth == x % depth
  {
    var turns, m := x / MODULUS, MODULUS / depth;
    DivModFacts(MODULUS, depth);
    DivModFacts(W32(x), depth);
    var q, r := W32(x) / depth, W32(x) % depth;
    assert x == turns * (m * depth) + (q * depth + r);
    assert turns * (m * depth) == (turns * m) * depth;
    assert (turns * m + q) * depth == (turns * m) * depth + q * depth;
    MulNonNeg(turns, m);
    DivUnique(x, depth, turns * m + q, r);
  }

  // ---------------------------------------------------------------- the invariant

  /** Works a channel has still to load. */
  function Works<W>(todo: seq<Entry<W>>): seq<W> {
    seq(|todo|, i requires 0 <= i < |todo| => todo[i].slot.work)
  }

  /** The launch that makes a block load this work, if it is the first of its chain. */
  function First<W>(depth: nat, e: Entry<W>): seq<Launch>
    requires depth >= 1
  {
    if e.first then [Launch(e.head % depth, e.y)] else []
  }

  /** The launches whose first work is still to be loaded. */
  function Firsts<W>(depth: nat, todo: seq<Entry<W>>): seq<Launch>
    requires depth >= 1
  {
    if todo == [] then [] else First(depth, todo[0]) + Firsts(depth, todo[1..])
  }

  /** The slot of a queued work is intact, and a block that starts there finds it. */
  ghost predicate EntryOk<W>(depth: nat, s: Sys<W>, c: nat, e: Entry<W>)
    requires depth >= 1 && c < |s.done| && |s.heap| == depth
  {
    && s.done[c] <= e.ix < s.sent
    && s.heap[e.ix % depth] == e.slot
    && (e.first ==> e.head % depth + e.y == e.ix % depth)
    && (e.slot.isLast ==> e.slot.doneAcks == e.ix + 1)
  }

  /** Consecutive works of a channel: the chain leads from one to the next, or a new chain starts. */
  ghost predicate Link<W>(depth: nat, a: Entry<W>, b: Entry<W>)
    requires depth >= 1
  {
    && a.ix < b.ix
    && b.first == a.slot.isLast
    && (!a.slot.isLast ==> a.head == b.head && b.head % depth + a.slot.workNext == b.ix % depth)
  }

  ghost predicate Chained<W>(depth: nat, todo: seq<Entry<W>>)
    requires depth >= 1
  {
    && (forall i :: 0 <= i < |todo| - 1 ==> Link(depth, todo[i], todo[i + 1]))
    && (todo != [] ==> todo[|todo| - 1].slot.isLast)
  }

  ghost predicate BlockOk<W>(depth: nat, s: Sys<W>, c: nat)
    requires depth >= 1 && c < |s.done| && c < |s.blocks| && c < |s.todo| && c < |s.chanSent|
  {
    var todo := s.todo[c];
    match s.blocks[c]
    case Resting => if todo == [] then s.done[c] == s.chanSent[c] else todo[0].first
    case Loaded(base, slot) =>
      if slot.isLast then
        && s.done[c] < slot.doneAcks
        && (if todo == [] then slot.doneAcks == s.chanSent[c] else todo[0].first && slot.doneAcks <= todo[0].ix)
      else
        todo != [] && !todo[0].first && base == todo[0].head % depth && base + slot.workNext == todo[0].ix % depth
  }

  ghost predicate ChanOk<W>(depth: nat, s: Sys<W>, c: nat)
    requires depth >= 1 && c < |s.done| && Shaped(|s.done|, depth, s)
  {
    && s.ackdMin <= s.done[c] <= s.chanSent[c] <= s.sent
    && (forall i :: 0 <= i < |s.todo[c]| ==> EntryOk(depth, s, c, s.todo[c][i]))
    && Chained(depth, s.todo[c])
    && (s.todo[c] != [] ==> s.chanSent[c] == s.todo[c][|s.todo[c]| - 1].ix + 1)
    && s.launches[c] == Firsts(depth, s.todo[c])
    && BlockOk(depth, s, c)
    && s.queued[c] == s.ran[c] + Works(s.todo[c])
  }

  /** The first `k` slots of the plan being written hold what was written. */
  ghost predicate Written<W>(depth: nat, s: Sys<W>, plan: Plan<W>, k: nat)
    requires depth >= 1 && |s.heap| == depth && k <= |PlanWrites(depth, plan, s.sent, |plan|)|
  {
    var ws := PlanWrites(depth, plan, s.sent, |plan|);
    forall i :: 0 <= i < k ==> s.heap[ws[i].ix % depth] == ws[i].slot
  }

  ghost predicate HostOk<W>(channels: nat, depth: nat, s: Sys<W>)
    requires depth >= 1 && Shaped(channels, depth, s)
  {
    match s.host
    case Idle => s.sent <= s.ackdMin + depth
    case Waiting(plan, polled) =>
      && PlanFits(channels, depth, plan)
      && s.sent < s.ackdMin + 2 * depth
      && s.sent % depth + ChannelCount(plan) <= depth
      && |polled| <= channels
      && (forall c :: 0 <= c < |polled| ==> s.ackdMin <= polled[c] <= s.done[c])
    case Writing(plan, k) =>
      && PlanFits(channels, depth, plan)
      && s.sent + WorkCount(plan) <= s.ackdMin + depth
      && s.sent % depth + ChannelCount(plan) <= depth
      && k <= |PlanWrites(depth, plan, s.sent, |plan|)|
      && Written(depth, s, plan, k)
  }

  ghost predicate Inv<W>(channels: nat, depth: nat, s: Sys<W>)
    requires depth >= 1
  {
    && Shaped(channels, depth, s)
    && s.ackdMin <= s.sent
    && HostOk(channels, depth, s)
    && (forall c :: 0 <= c < channels ==> ChanOk(depth, s, c))
  }

  lemma StartInv<W>(channels: nat, depth: nat, blank: Slot<W>)
    requires depth >= 1
    ensures Inv(channels, depth, Start(channels, depth, blank))
  {
    var s := Start(channels, depth, blank);
    forall c | 0 <= c < channels ensures ChanOk(depth, s, c) {
      assert s.queued[c] == s.ran[c] + Works(s.todo[c]);
    }
  }

  // ---------------------------------------------------------------- steps of the device

  lemma LastIsLarger<W>(depth: nat, todo: seq<Entry<W>>, i: nat)
    requires depth >= 1 && Chained(depth, todo) && i < |todo|
    ensures todo[i].ix <= todo[|todo| - 1].ix
    decreases |todo| - i
  {
    if i < |todo| - 1 {
      assert Link(depth, todo[i], todo[i + 1]);
      LastIsLarger(depth, todo, i + 1);
    }
  }

  /** Loading the first work still to do. */
  lemma LoadKeeps<W>(depth: nat, s: Sys<W>, s': Sys<W>, c: nat, base: nat, addr: nat)
    requires depth >= 1 && c < |s.done| && Shaped(|s.done|, depth, s) && ChanOk(depth, s, c)
    requires s.todo[c] != [] && addr == s.todo[c][0].ix % depth && base == s.todo[c][0].head % depth
    requires s' == LoadSlot(s.(launches := s.launches[c := Firsts(depth, s.todo[c][1..])]), c, base, addr)
    ensures ChanOk(depth, s', c)
  {
    hide Firsts;
    var todo := s.todo[c];
    var e := todo[0];
    assert EntryOk(depth, s, c, e);
    assert s'.todo[c] == todo[1..];
    assert Works(todo) == [e.slot.work] + Works(todo[1..]);
    assert s'.ran[c] == s.ran[c] + [e.slot.work];
    forall i | 0 <= i < |todo[1..]| ensures EntryOk(depth, s', c, todo[1..][i]) {
      assert EntryOk(depth, s, c, todo[i + 1]);
    }
    assert Chained(depth, todo[1..]) by {
      forall i | 0 <= i < |todo[1..]| - 1 ensures Link(depth, todo[1..][i], todo[1..][i + 1]) {
        assert Link(depth, todo[i + 1], todo[i + 2]);
      }
    }
    if |todo| > 1 {
      assert Link(depth, todo[0], todo[1]);
    }
  }

  lemma OthersKeep<W>(depth: nat, s: Sys<W>, s': Sys<W>, c: nat)
    requires depth >= 1 && c < |s.done| && Shaped(|s.done|, depth, s) && Shaped(|s.done|, depth, s') && ChanOk(depth, s, c)
    requires s'.heap == s.heap && s'.sent >= s.sent && s'.ackdMin == s.ackdMin
    requires s'.done[c] == s.done[c] && s'.chanSent[c] == s.chanSent[c]
    requires s'.todo[c] == s.todo[c] && s'.launches[c] == s.launches[c] && s'.blocks[c] == s.blocks[c]
    requires s'.queued[c] == s.queued[c] && s'.ran[c] == s.ran[c]
    ensures ChanOk(depth, s', c)
  {
    hide Firsts, Link, Works;
    assert BlockOk(depth, s', c);
    forall i | 0 <= i < |s.todo[c]| ensures EntryOk(depth, s', c, s'.todo[c][i]) {
      assert EntryOk(depth, s, c, s.todo[c][i]);
    }
  }

  /** When a block starts, the launch is that of its first work; the address it computes is in the ring. */
  lemma StartsRight<W>(depth: nat, s: Sys<W>, c: nat)
    requires depth >= 1 && c < |s.done| && Shaped(|s.done|, depth, s) && ChanOk(depth, s, c)
    requires s.blocks[c].Resting? && s.launches[c] != []
    ensures s.todo[c] != [] && s.launches[c][0].base == s.todo[c][0].head % depth
    ensures s.launches[c][0].base + s.launches[c][0].y == s.todo[c][0].ix % depth < depth
    ensures s.launches[c][1..] == Firsts(depth, s.todo[c][1..])
  {
    assert s.todo[c] != [] && EntryOk(depth, s, c, s.todo[c][0]);
  }

  lemma DevStartKeeps<W>(channels: nat, depth: nat, s: Sys<W>, c: nat)
    requires depth >= 1 && Inv(channels, depth, s) && Enabled(channels, depth, s, DevStart(c))
    ensures Inv(channels, depth, Apply(channels, depth, s, DevStart(c)))
  {
    hide ChanOk, Firsts, Written;
    var s' := Apply(channels, depth, s, DevStart(c));
    StartsRight(depth, s, c);
    LoadKeeps(depth, s, s', c, s.launches[c][0].base, s.todo[c][0].ix % depth);
    forall d | 0 <= d < channels && d != c ensures ChanOk(depth, s', d) { OthersKeep(depth, s, s', d); }
    HostKeeps(channels, depth, s, s');
  }

  lemma HostKeeps<W>(channels: nat, depth: nat, s: Sys<W>, s': Sys<W>)
    requires depth >= 1 && Shaped(channels, depth, s) && Shaped(channels, depth, s') && HostOk(channels, depth, s)
    requires s'.sent == s.sent && s'.heap == s.heap && s'.ackdMin == s.ackdMin && s'.host == s.host
    requires forall c :: 0 <= c < channels ==> s.done[c] <= s'.done[c]
    ensures HostOk(channels, depth, s')
  {
    hide PlanWrites, WorkCount, ChannelCount;
  }

  /** A block with a work other than its last finds the next one where workNext says, inside the ring. */
  lemma FollowsChain<W>(depth: nat, s: Sys<W>, c: nat)
    requires depth >= 1 && c < |s.done| && Shaped(|s.done|, depth, s) && ChanOk(depth, s, c)
    requires s.blocks[c].Loaded? && !s.blocks[c].slot.isLast
    ensures s.todo[c] != [] && s.blocks[c].base == s.todo[c][0].head % depth
    ensures s.blocks[c].base + s.blocks[c].slot.workNext == s.todo[c][0].ix % depth < depth
    ensures s.launches[c] == Firsts(depth, s.todo[c][1..])
  {
  }

  lemma DevNextKeeps<W>(channels: nat, depth: nat, s: Sys<W>, c: nat)
    requires depth >= 1 && Inv(channels, depth, s) && Enabled(channels, depth, s, DevNext(c))
    ensures Inv(channels, depth, Apply(channels, depth, s, DevNext(c)))
  {
    hide ChanOk, Firsts, Written;
    var s' := Apply(channels, depth, s, DevNext(c));
    FollowsChain(depth, s, c);
    assert s.launches == s.launches[c := Firsts(depth, s.todo[c][1..])];
    LoadKeeps(depth, s, s', c, s.blocks[c].base, s.todo[c][0].ix % depth);
    forall d | 0 <= d < channels && d != c ensures ChanOk(depth, s', d) { OthersKeep(depth, s, s', d); }
    HostKeeps(channels, depth, s, s');
  }

  /** Acknowledging a chain never passes a work still to be loaded. */
  lemma AckKeepsChan<W>(depth: nat, s: Sys<W>, s': Sys<W>, c: nat)
    requires depth >= 1 && c < |s.done| && Shaped(|s.done|, depth, s) && ChanOk(depth, s, c)
    requires s.blocks[c].Loaded? && s.blocks[c].slot.isLast
    requires s' == s.(done := s.done[c := s.blocks[c].slot.doneAcks], blocks := s.blocks[c := Resting])
    ensures ChanOk(depth, s', c) && s.done[c] <= s'.done[c]
  {
    hide Firsts, Works;
    var todo := s.todo[c];
    forall i | 0 <= i < |todo| ensures EntryOk(depth, s', c, todo[i]) && s'.done[c] < s.chanSent[c] {
      assert EntryOk(depth, s, c, todo[i]);
      FirstIsSmaller(depth, todo, i);
      LastIsLarger(depth, todo, 0);
    }
  }

  lemma FirstIsSmaller<W>(depth: nat, todo: seq<Entry<W>>, i: nat)
    requires depth >= 1 && Chained(depth, todo) && i < |todo|
    ensures todo[0].ix <= todo[i].ix
  {
    if i > 0 {
      assert Link(depth, todo[i - 1], todo[i - 1 + 1]);
      FirstIsSmaller(depth, todo, i - 1);
    }
  }

  lemma DevAckKeeps<W>(channels: nat, depth: nat, s: Sys<W>, c: nat)
    requires depth >= 1 && Inv(channels, depth, s) && Enabled(channels, depth, s, DevAck(c))
    ensures Inv(channels, depth, Apply(channels, depth, s, DevAck(c)))
  {
    hide ChanOk, Firsts, Written;
    var s' := Apply(channels, depth, s, DevAck(c));
    AckKeepsChan(depth, s, s', c);
    forall d | 0 <= d < channels && d != c ensures ChanOk(depth, s', d) { OthersKeep(depth, s, s', d); }
    HostKeeps(channels, depth, s, s');
  }

  // ---------------------------------------------------------------- steps of the host

  lemma {:induction false} CountsAgree<W>(plan: Plan<W>, n: nat)
    requires n <= |plan|
    ensures Below(plan, n) == 0 ==> Extra(plan, n) == 0
  {
    if n > 0 { CountsAgree(plan, n - 1); }
  }

  lemma BeginKeeps<W>(channels: nat, depth: nat, s: Sys<W>, plan: Plan<W>)
    requires depth >= 1 && Inv(channels, depth, s) && Enabled(channels, depth, s, Begin(plan))
    ensures Inv(channels, depth, Apply(channels, depth, s, Begin(plan)))
  {
    hide ChanOk, Firsts, PlanHead, Below, Extra;
    var s' := Apply(channels, depth, s, Begin(plan));
    CountsAgree(plan, |plan|);
    HeadFits(depth, plan, s.sent);
    forall c | 0 <= c < channels ensures ChanOk(depth, s', c) { OthersKeep(depth, s, s', c); }
  }

  lemma PollKeeps<W>(channels: nat, depth: nat, s: Sys<W>)
    requires depth >= 1 && Inv(channels, depth, s) && Enabled(channels, depth, s, Poll)
    ensures Inv(channels, depth, Apply(channels, depth, s, Poll))
  {
    hide Firsts, Link, Below, Extra, EntryOk, NeedWait, Works;
    var s' := Apply(channels, depth, s, Poll);
    var c := |s.host.polled|;
    assert ChanOk(depth, s, c);
    hide ChanOk;
    forall d | 0 <= d < channels ensures ChanOk(depth, s', d) { OthersKeep(depth, s, s', d); }
  }

  lemma SettledChan<W>(depth: nat, s: Sys<W>, s': Sys<W>, c: nat, a: nat)
    requires depth >= 1 && c < |s.done| && Shaped(|s.done|, depth, s) && ChanOk(depth, s, c)
    requires s.ackdMin <= a <= s.sent
    requires s' == s.(ackdMin := a, chanSent := s'.chanSent, done := s'.done, host := s'.host)
    requires |s'.chanSent| == |s'.done| == |s.done|
    requires (s.done[c] == s.chanSent[c] && s'.done[c] == s'.chanSent[c] == a)
      || (s'.done[c] == s.done[c] && s'.chanSent[c] == s.chanSent[c] && a <= s.done[c])
    ensures ChanOk(depth, s', c)
  {
    hide Firsts, Works;
    if s.todo[c] != [] {
      assert EntryOk(depth, s, c, s.todo[c][|s.todo[c]| - 1]);
    }
    forall i | 0 <= i < |s.todo[c]| ensures EntryOk(depth, s', c, s.todo[c][i]) {
      assert EntryOk(depth, s, c, s.todo[c][i]);
    }
  }

  /** The window of the counters while the host waits. */
  lemma Window<W>(depth: nat, s: Sys<W>, c: nat)
    requires depth >= 1 && c < |s.done| && Shaped(|s.done|, depth, s) && ChanOk(depth, s, c)
    ensures s.ackdMin <= s.done[c] <= s.chanSent[c] <= s.sent
  {
  }

  lemma DecideKeeps<W>(channels: nat, depth: nat, s: Sys<W>)
    requires ValidDepth(depth) && Inv(channels, depth, s) && Enabled(channels, depth, s, Decide)
    ensures Inv(channels, depth, Apply(channels, depth, s, Decide))
  {
    hide ChanOk, AckdAll, Quiesced, Below, Extra;
    var s' := Apply(channels, depth, s, Decide);
    var polled := s.host.polled;
    forall c | 0 <= c < channels ensures s.ackdMin <= polled[c] <= s.done[c] <= s.chanSent[c] <= s.sent {
      Window(depth, s, c);
    }
    AckdAllIsLeast(s.sent, s.chanSent, polled, channels, s.ackdMin);
    forall c | 0 <= c < channels ensures ChanOk(depth, s', c) {
      QuiescedIsEqual(s.chanSent, polled, c);
      SettledChan(depth, s, s', c, s'.ackdMin);
    }
  }

  lemma ProceedKeeps<W>(channels: nat, depth: nat, s: Sys<W>)
    requires ValidDepth(depth) && Inv(channels, depth, s) && Enabled(channels, depth, s, Proceed)
    ensures Inv(channels, depth, Apply(channels, depth, s, Proceed))
    ensures s.sent + WorkCount(s.host.plan) <= s.ackdMin + depth
  {
    hide ChanOk, Below, Extra, RollingLess32, W32;
    var s' := Apply(channels, depth, s, Proceed);
    var n := WorkCount(s.host.plan);
    RollingLessIsLess(s.ackdMin + depth, s.sent + n);
    forall c | 0 <= c < channels ensures ChanOk(depth, s', c) { OthersKeep(depth, s, s', c); }
  }

  /** Room for the plan: the slot about to be written holds no work a channel has still to load. */
  lemma NoOverwrite<W>(channels: nat, depth: nat, s: Sys<W>, c: nat, i: nat)
    requires depth >= 1 && Inv(channels, depth, s) && Enabled(channels, depth, s, WriteOne)
    requires c < channels && i < |s.todo[c]|
    ensures PlanWrites(depth, s.host.plan, s.sent, |s.host.plan|)[s.host.k].ix % depth != s.todo[c][i].ix % depth
  {
    hide Below, Extra, PlanWrites, WorkIx, SlotOf, Firsts, Written;
    var plan := s.host.plan;
    var d, j := WriteIsWork(depth, plan, s.sent, |plan|, s.host.k);
    WorkIxInRange(plan, s.sent, d, j);
    assert ChanOk(depth, s, c) && EntryOk(depth, s, c, s.todo[c][i]);
    SlotsDiffer(depth, s.todo[c][i].ix, WorkIx(plan, s.sent, d, j));
  }

  /** The slots of one plan do not overwrite each other. */
  lemma WritesApart<W>(depth: nat, plan: Plan<W>, head: nat, i: nat, k: nat)
    requires depth >= 1 && WorkCount(plan) <= depth && i < k < |PlanWrites(depth, plan, head, |plan|)|
    ensures PlanWrites(depth, plan, head, |plan|)[i].ix % depth != PlanWrites(depth, plan, head, |plan|)[k].ix % depth
  {
    hide Below, Extra, PlanWrites, WorkIx, SlotOf;
    var c, j := WriteIsWork(depth, plan, head, |plan|, i);
    var d, l := WriteIsWork(depth, plan, head, |plan|, k);
    WorkIxInRange(plan, head, c, j);
    WorkIxInRange(plan, head, d, l);
    var a, b := WorkIx(plan, head, c, j), WorkIx(plan, head, d, l);
    if a == b { WritesDistinct(depth, plan, head, i, k); }
    if a < b { SlotsDiffer(depth, a, b); } else { SlotsDiffer(depth, b, a); }
  }

  lemma WriteOneKeeps<W>(channels: nat, depth: nat, s: Sys<W>)
    requires depth >= 1 && Inv(channels, depth, s) && Enabled(channels, depth, s, WriteOne)
    ensures Inv(channels, depth, Apply(channels, depth, s, WriteOne))
  {
    hide Below, Extra, PlanWrites, WorkIx, SlotOf, Firsts, Works, Link;
    var s' := Apply(channels, depth, s, WriteOne);
    var plan, k := s.host.plan, s.host.k;
    var ws := PlanWrites(depth, plan, s.sent, |plan|);
    forall i | 0 <= i < k + 1 ensures s'.heap[ws[i].ix % depth] == ws[i].slot {
      if i < k { WritesApart(depth, plan, s.sent, i, k); }
    }
    forall c | 0 <= c < channels ensures ChanOk(depth, s', c) {
      assert ChanOk(depth, s, c);
      forall i | 0 <= i < |s.todo[c]| ensures EntryOk(depth, s', c, s.todo[c][i]) {
        NoOverwrite(channels, depth, s, c, i);
        assert EntryOk(depth, s, c, s.todo[c][i]);
      }
      assert BlockOk(depth, s', c);
    }
  }

  // ---------------------------------------------------------------- publishing a plan

  lemma UnfoldFirsts<W>(depth: nat, xs: seq<Entry<W>>)
    requires depth >= 1 && xs != []
    ensures Firsts(depth, xs) == First(depth, xs[0]) + Firsts(depth, xs[1..])
  {
  }

  lemma {:induction false} FirstsConcat<W>(depth: nat, xs: seq<Entry<W>>, ys: seq<Entry<W>>)
    requires depth >= 1
    ensures Firsts(depth, xs + ys) == Firsts(depth, xs) + Firsts(depth, ys)
  {
    hide First;
    var zs := xs + ys;
    if xs == [] {
      assert zs == ys;
    } else {
      FirstsConcat(depth, xs[1..], ys);
      assert zs[0] == xs[0] && zs[1..] == xs[1..] + ys;
      hide Firsts;
      UnfoldFirsts(depth, zs);
      UnfoldFirsts(depth, xs);
    }
  }

  lemma {:induction false} NoFirsts<W>(depth: nat, es: seq<Entry<W>>)
    requires depth >= 1 && forall i :: 0 <= i < |es| ==> !es[i].first
    ensures Firsts(depth, es) == []
  {
    if es != [] { NoFirsts(depth, es[1..]); }
  }

  /** The chain of one plan starts once, at the block number of its channel. */
  lemma PlanFirsts<W>(depth: nat, plan: Plan<W>, head: nat, c: nat)
    requires depth >= 1 && c < |plan|
    ensures Firsts(depth, PlanEntries(depth, plan, head, c)) ==
      if plan[c] == [] then [] else [Launch(head % depth, Below(plan, c))]
  {
    hide WorkIx, SlotOf;
    var es := PlanEntries(depth, plan, head, c);
    if plan[c] != [] { NoFirsts(depth, es[1..]); }
  }

  lemma PlanEntryOk<W>(channels: nat, depth: nat, s: Sys<W>, s': Sys<W>, c: nat, j: nat)
    requires depth >= 1 && Inv(channels, depth, s) && Enabled(channels, depth, s, Publish)
    requires s' == Apply(channels, depth, s, Publish) && c < channels && j < |s.host.plan[c]|
    ensures EntryOk(depth, s', c, PlanEntries(depth, s.host.plan, s.sent, c)[j])
    ensures s.sent <= PlanEntries(depth, s.host.plan, s.sent, c)[j].ix
  {
    var plan := s.host.plan;
    assert HostOk(channels, depth, s);
    Window(depth, s, c);
    hide Below, Extra, PlanWrites, Firsts, Launched, ChanOk, BlockOk, WorkIx, SlotOf, PlanEntries, Written;
    PlanEntryIs(depth, plan, s.sent, c, j);
    PlanEntryWritten(depth, s, plan, c, j);
  }

  /** Slot number, address and acknowledgement of a work of the plan. */
  lemma PlanEntryIs<W>(depth: nat, plan: Plan<W>, head: nat, c: nat, j: nat)
    requires depth >= 1 && c < |plan| && j < |plan[c]| && head % depth + ChannelCount(plan) <= depth
    ensures var e := PlanEntries(depth, plan, head, c)[j];
      && head <= e.ix < head + WorkCount(plan)
      && (e.first ==> e.head % depth + e.y == e.ix % depth)
      && (e.slot.isLast ==> e.slot.doneAcks == e.ix + 1)
  {
    WorkIxInRange(plan, head, c, j);
    hide Below, Extra;
    if j == 0 { SameTurn(head, depth, Below(plan, c)); }
  }

  /** It lies where its entry says. */
  lemma PlanEntryWritten<W>(depth: nat, s: Sys<W>, plan: Plan<W>, c: nat, j: nat)
    requires depth >= 1 && |s.heap| == depth && c < |plan| && j < |plan[c]|
    requires Written(depth, s, plan, |PlanWrites(depth, plan, s.sent, |plan|)|)
    ensures var e := PlanEntries(depth, plan, s.sent, c)[j]; s.heap[e.ix % depth] == e.slot
  {
    hide Below, Extra, PlanWrites, WorkIx, SlotOf;
    var i := WorkIsWritten(depth, plan, s.sent, |plan|, c, j);
  }

  lemma PlanChained<W>(depth: nat, plan: Plan<W>, head: nat, c: nat)
    requires depth >= 1 && c < |plan|
    ensures Chained(depth, PlanEntries(depth, plan, head, c))
  {
    hide WorkIx;
    var es := PlanEntries(depth, plan, head, c);
    forall j | 0 <= j < |es| - 1 ensures Link(depth, es[j], es[j + 1]) {
      WorkIxIncreases(plan, head, c, j);
    }
  }

  lemma ChainedConcat<W>(depth: nat, xs: seq<Entry<W>>, ys: seq<Entry<W>>)
    requires depth >= 1 && Chained(depth, xs) && Chained(depth, ys)
    requires xs != [] && ys != [] ==> xs[|xs| - 1].ix < ys[0].ix && ys[0].first
    ensures Chained(depth, xs + ys)
  {
    var zs := xs + ys;
    forall i | 0 <= i < |zs| - 1 ensures Link(depth, zs[i], zs[i + 1]) {
      if i + 1 < |xs| {
        assert Link(depth, xs[i], xs[i + 1]);
      } else if i >= |xs| {
        assert Link(depth, ys[i - |xs|], ys[i - |xs| + 1]);
      }
    }
  }

  lemma PublishBlock<W>(channels: nat, depth: nat, s: Sys<W>, s': Sys<W>, c: nat)
    requires depth >= 1 && Inv(channels, depth, s) && Enabled(channels, depth, s, Publish)
    requires s' == Apply(channels, depth, s, Publish) && c < channels
    ensures BlockOk(depth, s', c)
  {
    hide Below, Extra, PlanWrites, Firsts, WorkIx, SlotOf, Launched, Written;
    var plan := s.host.plan;
    assert ChanOk(depth, s, c);
    if plan[c] != [] { WorkIxInRange(plan, s.sent, c, 0); }
  }

  lemma PublishEntries<W>(channels: nat, depth: nat, s: Sys<W>, s': Sys<W>, c: nat)
    requires depth >= 1 && Inv(channels, depth, s) && Enabled(channels, depth, s, Publish)
    requires s' == Apply(channels, depth, s, Publish) && c < channels
    ensures forall i :: 0 <= i < |s'.todo[c]| ==> EntryOk(depth, s', c, s'.todo[c][i])
  {
    hide Below, Extra, PlanWrites, Firsts, WorkIx, SlotOf, BlockOk, HostOk, Link, Chained, Launched, Sent;
    var todo := s.todo[c];
    assert ChanOk(depth, s, c);
    forall i | 0 <= i < |s'.todo[c]| ensures EntryOk(depth, s', c, s'.todo[c][i]) {
      if i < |todo| { assert EntryOk(depth, s, c, todo[i]); } else { PlanEntryOk(channels, depth, s, s', c, i - |todo|); }
    }
  }

  /** The works of the plan are chained behind those queued before. */
  lemma PublishChained<W>(channels: nat, depth: nat, s: Sys<W>, c: nat)
    requires depth >= 1 && Inv(channels, depth, s) && Enabled(channels, depth, s, Publish) && c < channels
    ensures Chained(depth, s.todo[c] + PlanEntries(depth, s.host.plan, s.sent, c))
  {
    hide Below, Extra, PlanWrites, Firsts, WorkIx, SlotOf, BlockOk, HostOk, Link;
    var plan, todo := s.host.plan, s.todo[c];
    assert ChanOk(depth, s, c);
    if todo != [] { assert EntryOk(depth, s, c, todo[|todo| - 1]); }
    if plan[c] != [] { WorkIxInRange(plan, s.sent, c, 0); }
    hide Inv;
    PlanChained(depth, plan, s.sent, c);
    ChainedConcat(depth, todo, PlanEntries(depth, plan, s.sent, c));
  }

  lemma PublishChan<W>(channels: nat, depth: nat, s: Sys<W>, s': Sys<W>, c: nat)
    requires depth >= 1 && Inv(channels, depth, s) && Enabled(channels, depth, s, Publish)
    requires s' == Apply(channels, depth, s, Publish) && c < channels
    ensures ChanOk(depth, s', c)
  {
    hide Below, Extra, PlanWrites, Firsts, WorkIx, SlotOf, BlockOk, HostOk, Link, Chained, EntryOk;
    var plan := s.host.plan;
    var es := PlanEntries(depth, plan, s.sent, c);
    var todo := s.todo[c];
    assert ChanOk(depth, s, c);
    if plan[c] != [] { WorkIxInRange(plan, s.sent, c, |plan[c]| - 1); }
    PublishBlock(channels, depth, s, s', c);
    PublishChained(channels, depth, s, c);
    PublishEntries(channels, depth, s, s', c);
    hide Inv;
    FirstsConcat(depth, todo, es);
    PlanFirsts(depth, plan, s.sent, c);
    assert s'.launches[c] == Firsts(depth, s'.todo[c]);
    PlanWorks(depth, plan, s.sent, c);
    assert Works(todo + es) == Works(todo) + Works(es);
  }

  lemma PlanWorks<W>(depth: nat, plan: Plan<W>, head: nat, c: nat)
    requires depth >= 1 && c < |plan|
    ensures Works(PlanEntries(depth, plan, head, c)) == plan[c]
  {
    hide WorkIx;
  }

  lemma PublishKeeps<W>(channels: nat, depth: nat, s: Sys<W>)
    requires depth >= 1 && Inv(channels, depth, s) && Enabled(channels, depth, s, Publish)
    ensures Inv(channels, depth, Apply(channels, depth, s, Publish))
  {
    hide ChanOk, Below, Extra, PlanWrites, Written;
    var s' := Apply(channels, depth, s, Publish);
    forall c | 0 <= c < channels ensures ChanOk(depth, s', c) { PublishChan(channels, depth, s, s', c); }
  }

  // ---------------------------------------------------------------- whole runs

  lemma StepInv<W>(channels: nat, depth: nat, s: Sys<W>, e: Event<W>)
    requires ValidDepth(depth) && Inv(channels, depth, s) && Enabled(channels, depth, s, e)
    ensures Inv(channels, depth, Apply(channels, depth, s, e))
  {
    hide Inv, Apply, Enabled;
    match e
    case Begin(plan) => BeginKeeps(channels, depth, s, plan);
    case Poll => PollKeeps(channels, depth, s);
    case Decide => DecideKeeps(channels, depth, s);
    case Proceed => ProceedKeeps(channels, depth, s);
    case WriteOne => WriteOneKeeps(channels, depth, s);
    case Publish => PublishKeeps(channels, depth, s);
    case DevStart(c) => DevStartKeeps(channels, depth, s, c);
    case DevNext(c) => DevNextKeeps(channels, depth, s, c);
    case DevAck(c) => DevAckKeeps(channels, depth, s, c);
  }

  lemma {:induction false} RunInv<W>(channels: nat, depth: nat, blank: Slot<W>, trace: seq<Sys<W>>, events: seq<Event<W>>, i: nat)
    requires ValidDepth(depth) && Run(channels, depth, blank, trace, events) && i < |trace|
    ensures Inv(channels, depth, trace[i])
  {
    hide Inv, Apply, Enabled;
    if i == 0 {
      StartInv(channels, depth, blank);
    } else {
      RunInv(channels, depth, blank, trace, events, i - 1);
      StepInv(channels, depth, trace[i - 1], events[i - 1]);
      assert trace[i - 1 + 1] == Apply(channels, depth, trace[i - 1], events[i - 1]);
    }
  }

  /** At every point of every run a channel has loaded a prefix of the works queued for it, in order. */
  lemma WorksRunInOrder<W>(channels: nat, depth: nat, blank: Slot<W>, trace: seq<Sys<W>>, events: seq<Event<W>>, i: nat, c: nat)
    requires ValidDepth(depth) && Run(channels, depth, blank, trace, events) && i < |trace| && c < channels
    ensures Shaped(channels, depth, trace[i]) && trace[i].ran[c] <= trace[i].queued[c]
    ensures trace[i].blocks[c].Resting? && trace[i].launches[c] == [] ==> trace[i].ran[c] == trace[i].queued[c]
  {
    hide Run;
    RunInv(channels, depth, blank, trace, events, i);
    assert ChanOk(depth, trace[i], c);
  }

  /** In every run, a slot that is written holds no work still to be loaded by any channel. */
  lemma NeverOverwritten<W>(channels: nat, depth: nat, blank: Slot<W>, trace: seq<Sys<W>>, events: seq<Event<W>>, i: nat, c: nat, j: nat)
    requires ValidDepth(depth) && Run(channels, depth, blank, trace, events) && i < |events| && events[i].WriteOne?
    requires c < channels && Shaped(channels, depth, trace[i]) && j < |trace[i].todo[c]|
    ensures trace[i + 1].heap[trace[i].todo[c][j].ix % depth] == trace[i].heap[trace[i].todo[c][j].ix % depth] == trace[i].todo[c][j].slot
  {
    RunInv(channels, depth, blank, trace, events, i);
    var s := trace[i];
    assert Enabled(channels, depth, s, events[i]);
    NoOverwrite(channels, depth, s, c, j);
    assert ChanOk(depth, s, c) && EntryOk(depth, s, c, s.todo[c][j]);
  }

  /** The address a block computes, from its launch or from workNext, always lies in the ring. */
  lemma AddressesInRange<W>(channels: nat, depth: nat, blank: Slot<W>, trace: seq<Sys<W>>, events: seq<Event<W>>, i: nat, c: nat)
    requires ValidDepth(depth) && Run(channels, depth, blank, trace, events) && i < |trace| && c < channels
    ensures Shaped(channels, depth, trace[i])
    ensures trace[i].blocks[c].Resting? && trace[i].launches[c] != [] ==> Enabled(channels, depth, trace[i], DevStart(c))
    ensures trace[i].blocks[c].Loaded? ==> Enabled(channels, depth, trace[i], DevNext(c)) || Enabled(channels, depth, trace[i], DevAck(c))
  {
    hide Run, ChanOk;
    RunInv(channels, depth, blank, trace, events, i);
    var s := trace[i];
    if s.blocks[c].Resting? && s.launches[c] != [] { StartsRight(depth, s, c); }
    if s.blocks[c].Loaded? && !s.blocks[c].slot.isLast { FollowsChain(depth, s, c); }
  }

  /** A channel with nothing launched and nothing loaded reads as having acknowledged all it was sent. */
  lemma IdleChannelIsQuiesced<W>(channels: nat, depth: nat, s: Sys<W>, c: nat)
    requires depth >= 1 && Inv(channels, depth, s) && c < channels
    ensures s.blocks[c].Resting? && s.launches[c] == [] <==> s.done[c] == s.chanSent[c]
  {
    assert ChanOk(depth, s, c);
    if s.todo[c] != [] { assert EntryOk(depth, s, c, s.todo[c][|s.todo[c]| - 1]); }
  }

  /** In every run the host polls for room exactly if its plan does not fit behind what it knows to be acknowledged. */
  lemma WaitsIff<W>(channels: nat, depth: nat, blank: Slot<W>, trace: seq<Sys<W>>, events: seq<Event<W>>, i: nat)
    requires ValidDepth(depth) && Run(channels, depth, blank, trace, events) && i < |trace| && trace[i].host.Waiting?
    ensures NeedWait(depth, trace[i], trace[i].host.plan) <==> trace[i].ackdMin + depth < trace[i].sent + WorkCount(trace[i].host.plan)
    ensures Shaped(channels, depth, trace[i]) && trace[i].host.polled == [] ==>
      (Enabled(channels, depth, trace[i], Proceed) <==> trace[i].sent + WorkCount(trace[i].host.plan) <= trace[i].ackdMin + depth)
  {
    hide Run, ChanOk, WorkCount, ChannelCount;
    RunInv(channels, depth, blank, trace, events, i);
    var s := trace[i];
    RollingLessIsLess(s.ackdMin + depth, s.sent + WorkCount(s.host.plan));
  }

  /** The host does not wait for ever: a round of polls that finds every channel quiesced makes room for any plan. */
  lemma QuiescedMakesRoom<W>(channels: nat, depth: nat, s: Sys<W>)
    requires ValidDepth(depth) && Inv(channels, depth, s) && Enabled(channels, depth, s, Decide)
    requires forall c :: 0 <= c < channels ==> s.host.polled[c] == s.chanSent[c]
    ensures Enabled(channels, depth, Apply(channels, depth, s, Decide), Proceed)
  {
    hide ChanOk, AckdAll, WorkCount, RollingLess32;
    AckdAllWhenQuiesced(s.sent, s.chanSent, s.host.polled, channels);
    RollingLessIsLess(s.sent + depth, s.sent + WorkCount(s.host.plan));
  }

  lemma {:induction false} AckdAllWhenQuiesced(sent: nat, chanSent: seq<nat>, polled: seq<nat>, c: nat)
    requires c <= |chanSent| == |polled| && forall k :: 0 <= k < c ==> polled[k] == chanSent[k]
    ensures AckdAll(sent, chanSent, polled, c) == sent
  {
    if c > 0 { AckdAllWhenQuiesced(sent, chanSent, polled, c - 1); }
  }

  // ---------------------------------------------------------------- which channel a block serves

  /** The channel search of ncclKernelMain: the channel of block `y` is the y-th one with work. */
  method SelectChannel<W>(plan: Plan<W>, y: nat) returns (channel: nat)
    requires y < ChannelCount(plan)
    ensures channel < |plan| && plan[channel] != [] && Below(plan, channel) == y
    ensures forall c :: 0 <= c < |plan| && plan[c] != [] && Below(plan, c) == y ==> c == channel
  {
    channel := 0;
    for x := 0 to |plan|
      invariant Below(plan, x) > y ==> channel < x && plan[channel] != [] && Below(plan, channel) == y
    {
      if plan[x] != [] && Below(plan, x) == y {
        channel := x;
      }
    }
    forall c | 0 <= c < |plan| && plan[c] != [] && Below(plan, c) == y ensures c == channel {
      if c < channel {
        BlocksIncrease(plan, c, channel);
      } else if channel < c {
        BlocksIncrease(plan, channel, c);
      }
    }
  }

  /** Channels with work have blocks in channel order, so no two share one. */
  lemma BlocksIncrease<W>(plan: Plan<W>, c: nat, d: nat)
    requires c < d < |plan| && plan[c] != []
    ensures Below(plan, c) < Below(plan, d)
  {
    LayoutMono(plan, c + 1, d);
  }
}
