/**
 How collectives are packed onto channels (src/enqueue.cc): addCBDCollToPlan fills the channels one
 after the other up to a common limit, addTunedCollToPlan picks the least loaded channels.
 */
module Packer {
  import opened Arith

  /** A work element: `count` elements from `offset` on, done by `channel`. */
  datatype Elem = Elem(channel: nat, offset: nat, count: nat)

  /** Bytes of `count` elements. */
  function Size(count: nat, typeSize: nat): nat {
    MulNonNeg(count, typeSize);
    count * typeSize
  }

  lemma SizeAdds(a: nat, b: nat, typeSize: nat)
    ensures Size(a + b, typeSize) == Size(a, typeSize) + Size(b, typeSize)
    ensures b > 0 && typeSize > 0 ==> Size(b, typeSize) > 0
  {
    assert (a + b) * typeSize == a * typeSize + b * typeSize;
    if b > 0 && typeSize > 0 { MulMono(1, b, typeSize); }
  }

  function Sum(loads: seq<nat>): nat { if loads == [] then 0 else Sum(loads[..|loads| - 1]) + loads[|loads| - 1] }

  lemma {:induction false} SumUpdate(loads: seq<nat>, c: nat, more: nat)
    requires c < |loads|
    ensures Sum(loads[c := loads[c] + more]) == Sum(loads) + more
  {
    var n := |loads| - 1;
    var loads' := loads[c := loads[c] + more];
    if c == n {
      assert loads'[..n] == loads[..n];
    } else {
      SumUpdate(loads[..n], c, more);
      assert loads'[..n] == loads[..n][c := loads[..n][c] + more];
    }
  }

  lemma {:induction false} SumAtLeast(loads: seq<nat>, limit: nat)
    requires forall c :: 0 <= c < |loads| ==> loads[c] >= limit
    ensures Sum(loads) >= |loads| * limit
  {
    if loads != [] {
      var n := |loads| - 1;
      SumAtLeast(loads[..n], limit);
      assert (n + 1) * limit == n * limit + limit;
    }
  }

  /** The elements cover [0, end) in order without gaps, none empty, on different channels below `n`. */
  predicate Tiles(elems: seq<Elem>, end: nat, n: nat)
    decreases |elems|
  {
    if elems == [] then end == 0
    else
      var front, e := elems[..|elems| - 1], elems[|elems| - 1];
      && e.count > 0 && e.channel < n && end == e.offset + e.count
      && (forall i :: 0 <= i < |front| ==> front[i].channel != e.channel)
      && Tiles(front, e.offset, n)
  }

  /** What the channels carry once the elements are added. */
  function Loaded(loads: seq<nat>, elems: seq<Elem>, typeSize: nat): (r: seq<nat>)
    ensures |r| == |loads|
  {
    if elems == [] then loads
    else
      var before := Loaded(loads, elems[..|elems| - 1], typeSize);
      var e := elems[|elems| - 1];
      if e.channel < |loads| then before[e.channel := before[e.channel] + Size(e.count, typeSize)] else before
  }

  /** Which element of the collective a position belongs to: exactly one. */
  lemma {:induction false} CoveredOnce(elems: seq<Elem>, end: nat, n: nat, x: nat) returns (i: nat)
    requires Tiles(elems, end, n) && x < end
    ensures i < |elems| && elems[i].offset <= x < elems[i].offset + elems[i].count
    ensures forall j :: 0 <= j < |elems| && elems[j].offset <= x < elems[j].offset + elems[j].count ==> j == i
  {
    var m := |elems| - 1;
    var front := elems[..m];
    forall j | 0 <= j < m ensures elems[j].offset + elems[j].count <= elems[m].offset {
      WithinEnd(front, elems[m].offset, n, j);
    }
    if elems[m].offset <= x {
      i := m;
    } else {
      i := CoveredOnce(front, elems[m].offset, n, x);
      forall j | 0 <= j < |elems| && elems[j].offset <= x < elems[j].offset + elems[j].count ensures j == i {
        assert j < m && front[j] == elems[j];
      }
    }
  }

  lemma {:induction false} WithinEnd(elems: seq<Elem>, end: nat, n: nat, j: nat)
    requires Tiles(elems, end, n) && j < |elems|
    ensures elems[j].offset + elems[j].count <= end
  {
    var m := |elems| - 1;
    if j < m { WithinEnd(elems[..m], elems[m].offset, n, j); }
  }

  /** No two elements of a collective share a channel. */
  lemma {:induction false} ChannelsDiffer(elems: seq<Elem>, end: nat, n: nat, i: nat, j: nat)
    requires Tiles(elems, end, n) && i < j < |elems|
    ensures elems[i].channel != elems[j].channel
  {
    var m := |elems| - 1;
    if j < m { ChannelsDiffer(elems[..m], elems[m].offset, n, i, j); } else { assert elems[..m][i] == elems[i]; }
  }

  // ---------------------------------------------------------------- filling channels up to a limit

  /** Elements of a collective that go to a channel with `load` bytes: enough to reach the limit, rounded up. */
  function Share(limit: nat, load: nat, rest: nat, typeSize: nat, align: nat): (count: nat)
    requires load < limit && typeSize >= 1 && align >= 1 && rest >= 1
    ensures 1 <= count <= rest && (count == rest || load + Size(count, typeSize) >= limit)
    ensures load + Size(count, typeSize) <= limit + Size(align, typeSize)
    ensures count == rest || count % align == 0
  {
    MulNonNeg(rest, typeSize);
    MulMono(1, rest, typeSize);
    var bytes := Min(limit - load, rest * typeSize);
    var d := DivUp(bytes, typeSize);
    var up := DivUp(d, align) * align;
    ShareBounds(bytes, d, up, rest, typeSize);
    ShareTight(bytes, d, up, rest, typeSize, align);
    DivUnique(up, align, DivUp(d, align), 0);
    Min(up, rest)
  }

  lemma ShareBounds(bytes: nat, d: nat, up: nat, rest: nat, typeSize: nat)
    requires typeSize >= 1 && rest >= 1 && bytes >= 1 && bytes <= d * typeSize < bytes + typeSize && d <= up && bytes <= rest * typeSize
    ensures up >= 1 && (bytes == rest * typeSize ==> up >= rest) && up * typeSize >= bytes
  {
    if d == 0 { assert false; }
    MulMono(d, up, typeSize);
    assert (d + 1) * typeSize == d * typeSize + typeSize;
    if bytes == rest * typeSize && d < rest { MulMono(d + 1, rest, typeSize); }
  }

  lemma ShareTight(bytes: nat, d: nat, up: nat, rest: nat, typeSize: nat, align: nat)
    requires typeSize >= 1 && d * typeSize < bytes + typeSize && up < d + align
    ensures Size(Min(up, rest), typeSize) <= bytes + Size(align, typeSize)
  {
    MulMono(Min(up, rest), d + align - 1, typeSize);
    assert (d + align - 1) * typeSize == d * typeSize + align * typeSize - typeSize;
  }

  /** One more element behind the others. */
  lemma AppendTiles(elems: seq<Elem>, offset: nat, n: nat, e: Elem)
    requires Tiles(elems, offset, n) && e.offset == offset && e.count > 0 && e.channel < n
    requires forall i :: 0 <= i < |elems| ==> elems[i].channel != e.channel
    ensures Tiles(elems + [e], offset + e.count, n)
  {
    assert (elems + [e])[..|elems|] == elems;
  }

  lemma AppendLoad(loads: seq<nat>, elems: seq<Elem>, e: Elem, typeSize: nat)
    requires e.channel < |loads|
    ensures var before := Loaded(loads, elems, typeSize);
      && Loaded(loads, elems + [e], typeSize) == before[e.channel := before[e.channel] + Size(e.count, typeSize)]
      && Sum(Loaded(loads, elems + [e], typeSize)) == Sum(before) + Size(e.count, typeSize)
  {
    hide Sum, Size;
    assert (elems + [e])[..|elems|] == elems && (elems + [e])[|elems|] == e;
    assert elems + [e] != [];
    SumUpdate(Loaded(loads, elems, typeSize), e.channel, Size(e.count, typeSize));
  }

  predicate Before(elems: seq<Elem>, c: nat) { forall i :: 0 <= i < |elems| ==> elems[i].channel < c }

  /** Channels before `c` are up to the limit. */
  predicate FullBelow(loads: seq<nat>, c: nat, limit: nat) {
    c <= |loads| && forall d :: 0 <= d < c ==> loads[d] >= limit
  }

  lemma FullSum(loads: seq<nat>, limit: nat)
    requires FullBelow(loads, |loads|, limit)
    ensures Sum(loads) >= |loads| * limit
  {
    SumAtLeast(loads, limit);
  }

  lemma OneMore(loads: seq<nat>, elems: seq<Elem>, c: nat, limit: nat, load: nat, e: Elem)
    requires c < |loads| && Before(elems, c) && e.channel == c
    ensures Before(elems + [e], c + 1) && Before(elems, c + 1) && forall i :: 0 <= i < |elems| ==> elems[i].channel != c
    ensures FullBelow(loads, c, limit) && load >= limit ==> FullBelow(loads[c := load], c + 1, limit)
    ensures FullBelow(loads, c, limit) && loads[c] >= limit ==> FullBelow(loads, c + 1, limit)
  {
  }

  /** No channel carries more than before or more than `bound`. */
  predicate NotOver(loads: seq<nat>, loads': seq<nat>, bound: nat) {
    |loads'| == |loads| && forall c :: 0 <= c < |loads| ==> loads'[c] <= Max(loads[c], bound)
  }

  lemma StillNotOver(loads: seq<nat>, loads': seq<nat>, bound: nat, c: nat, load: nat)
    requires NotOver(loads, loads', bound) && c < |loads'| && load <= bound
    ensures NotOver(loads, loads'[c := load], bound)
  {
  }

  /** The channels before `c` are done, and the first `offset` elements are placed. */
  ghost predicate Filling(loads: seq<nat>, limit: nat, count: nat, typeSize: nat, align: nat, bound: nat,
                          loads': seq<nat>, elems: seq<Elem>, offset: nat, c: nat) {
    && c <= |loads| == |loads'| && offset <= count
    && Tiles(elems, offset, |loads|) && Before(elems, c)
    && loads' == Loaded(loads, elems, typeSize) && Sum(loads') == Sum(loads) + Size(offset, typeSize)
    && (offset == count || FullBelow(loads', c, limit)) && NotOver(loads, loads', bound)
    && (offset == count || Multiple(offset, align)) && AlignedOffsets(elems, align)
  }

  predicate Multiple(x: nat, align: nat) { align >= 1 && x % align == 0 }

  /** Every part starts at a multiple of the alignment. */
  predicate AlignedOffsets(elems: seq<Elem>, align: nat) { forall i :: 0 <= i < |elems| ==> Multiple(elems[i].offset, align) }

  lemma MultipleSum(a: nat, b: nat, align: nat)
    requires Multiple(a, align) && Multiple(b, align)
    ensures Multiple(a + b, align)
  {
    MultiplePlus(a, b, align);
  }

  lemma FillStart(loads: seq<nat>, limit: nat, count: nat, typeSize: nat, align: nat, bound: nat)
    requires align >= 1
    ensures Filling(loads, limit, count, typeSize, align, bound, loads, [], 0, 0)
  {
    assert Size(0, typeSize) == 0;
    DivUnique(0, align, 0, 0);
  }

  lemma FillSkip(loads: seq<nat>, limit: nat, count: nat, typeSize: nat, align: nat, bound: nat, loads': seq<nat>, elems: seq<Elem>, offset: nat, c: nat)
    requires Filling(loads, limit, count, typeSize, align, bound, loads', elems, offset, c) && c < |loads'| && limit <= loads'[c]
    ensures Filling(loads, limit, count, typeSize, align, bound, loads', elems, offset, c + 1)
  {
    hide Multiple, AlignedOffsets, Tiles, Sum, Size, Loaded, NotOver;
  }

  lemma FillChannel(loads: seq<nat>, limit: nat, count: nat, typeSize: nat, align: nat, bound: nat, loads': seq<nat>, elems: seq<Elem>, offset: nat, c: nat,
                    part: nat)
    requires Filling(loads, limit, count, typeSize, align, bound, loads', elems, offset, c) && c < |loads'| && 1 <= part <= count - offset
    requires loads'[c] + Size(part, typeSize) <= bound && (part == count - offset || loads'[c] + Size(part, typeSize) >= limit)
    requires part == count - offset || Multiple(part, align)
    ensures var load := loads'[c] + Size(part, typeSize);
      Filling(loads, limit, count, typeSize, align, bound, loads'[c := load], elems + [Elem(c, offset, part)], offset + part, c + 1)
  {
    hide Multiple, AlignedOffsets, Tiles, Sum, Size, Loaded, NotOver, FullBelow, Before;
    var e, load := Elem(c, offset, part), loads'[c] + Size(part, typeSize);
    OneMore(loads', elems, c, limit, load, e);
    AppendTiles(elems, offset, |loads|, e);
    AppendLoad(loads, elems, e, typeSize);
    SizeAdds(offset, part, typeSize);
    StillNotOver(loads, loads', bound, c, load);
    if part != count - offset { MultipleSum(offset, part, align); }
    AlignedNext(elems, e, align);
  }

  lemma AlignedNext(elems: seq<Elem>, e: Elem, align: nat)
    requires AlignedOffsets(elems, align) && Multiple(e.offset, align)
    ensures AlignedOffsets(elems + [e], align)
  {
  }

  /** When all channels are full, or everything is placed, everything is placed. */
  lemma FillEnd(loads: seq<nat>, limit: nat, count: nat, typeSize: nat, align: nat, bound: nat, loads': seq<nat>, elems: seq<Elem>, offset: nat, c: nat)
    requires Filling(loads, limit, count, typeSize, align, bound, loads', elems, offset, c) && (offset == count || c == |loads|)
    requires typeSize >= 1 && Sum(loads) + Size(count, typeSize) <= |loads| * limit
    ensures offset == count && Tiles(elems, count, |loads|) && loads' == Loaded(loads, elems, typeSize)
    ensures |loads'| == |loads| && Sum(loads') == Sum(loads) + Size(count, typeSize) && NotOver(loads, loads', bound)
    ensures AlignedOffsets(elems, align)
  {
    hide Multiple, AlignedOffsets, Tiles, Sum, Size, Loaded, NotOver, Before;
    if offset < count {
      SizeAdds(offset, count - offset, typeSize);
      FullSum(loads', limit);
    }
  }

  /** addCBDCollToPlan: the collective is placed completely if the channels together have room for it under the limit. */
  method AddCbdColl(loads: seq<nat>, limit: nat, count: nat, typeSize: nat, align: nat) returns (loads': seq<nat>, elems: seq<Elem>)
    requires typeSize >= 1 && align >= 1 && Sum(loads) + Size(count, typeSize) <= |loads| * limit
    ensures Tiles(elems, count, |loads|) && loads' == Loaded(loads, elems, typeSize)
    ensures |loads'| == |loads| && Sum(loads') == Sum(loads) + Size(count, typeSize)
    ensures NotOver(loads, loads', limit + Size(align, typeSize)) && AlignedOffsets(elems, align)
  {
    hide Tiles, Sum, Share, Size, Loaded, NotOver, Filling;
    loads', elems := loads, [];
    var rest: nat, offset: nat := count, 0;
    ghost var bound := limit + Size(align, typeSize);
    FillStart(loads, limit, count, typeSize, align, bound);
    var c := 0;
    while c < |loads|
      invariant c <= |loads| == |loads'| && offset + rest == count
      invariant Filling(loads, limit, count, typeSize, align, bound, loads', elems, offset, c)
      decreases |loads| - c
    {
      if limit <= loads'[c] {
        FillSkip(loads, limit, count, typeSize, align, bound, loads', elems, offset, c);
      } else {
        if rest == 0 { break; }
        var workCount := Share(limit, loads'[c], rest, typeSize, align);
        FillChannel(loads, limit, count, typeSize, align, bound, loads', elems, offset, c, workCount);
        loads' := loads'[c := loads'[c] + Size(workCount, typeSize)];
        elems := elems + [Elem(c, offset, workCount)];
        rest, offset := rest - workCount, offset + workCount;
      }
      c := c + 1;
    }
    FillEnd(loads, limit, count, typeSize, align, bound, loads', elems, offset, c);
  }

  /** A collective: number of elements, bytes per element, alignment of a chunk. */
  datatype Coll = Coll(count: nat, typeSize: nat, align: nat)

  predicate CollOk(k: Coll) { k.typeSize >= 1 && k.align >= 1 }

  function Bytes(colls: seq<Coll>): nat {
    if colls == [] then 0 else
      var k := colls[|colls| - 1];
      Bytes(colls[..|colls| - 1]) + Size(k.count, k.typeSize)
  }

  const NCCL_BYTES_ALIGNMENT: nat := 16

  /** The limit of scheduleCollTasksToPlan: an equal share of all bytes, rounded up. */
  function Limit(total: nat, channels: nat): (m: nat)
    requires channels >= 1
    ensures total <= channels * m < total + channels * (NCCL_BYTES_ALIGNMENT + 1)
  {
    var share := DivUp(total, channels);
    var up := DivUp(share, NCCL_BYTES_ALIGNMENT);
    MulMono(share, up * NCCL_BYTES_ALIGNMENT, channels);
    up * NCCL_BYTES_ALIGNMENT
  }

  /** The loop over the queued collectives: each is placed completely, and no channel gets more than its share and one chunk. */
  method ScheduleCbd(colls: seq<Coll>, channels: nat, ghost slack: nat) returns (loads: seq<nat>, placed: seq<seq<Elem>>)
    requires channels >= 1 && forall k :: 0 <= k < |colls| ==> CollOk(colls[k]) && Size(colls[k].align, colls[k].typeSize) <= slack
    ensures |placed| == |colls| && |loads| == channels && Sum(loads) == Bytes(colls)
    ensures forall k :: 0 <= k < |colls| ==> Tiles(placed[k], colls[k].count, channels) && AlignedOffsets(placed[k], colls[k].align)
    ensures forall c :: 0 <= c < channels ==> loads[c] <= Limit(Bytes(colls), channels) + slack
  {
    var total := Bytes(colls);
    var limit := Limit(total, channels);
    loads, placed := seq(channels, _ => 0), [];
    SumOfZeros(channels);
    assert colls[..0] == [] && colls[..|colls|] == colls;
    hide Tiles, Sum, Limit, Size;
    for k := 0 to |colls|
      invariant |placed| == k && |loads| == channels && Sum(loads) == Bytes(colls[..k])
      invariant forall j :: 0 <= j < k ==> Tiles(placed[j], colls[j].count, channels) && AlignedOffsets(placed[j], colls[j].align)
      invariant forall c :: 0 <= c < channels ==> loads[c] <= limit + slack
    {
      var coll := colls[k];
      assert colls[..k + 1][..k] == colls[..k];
      BytesMono(colls, k + 1);
      var elems;
      loads, elems := AddCbdColl(loads, limit, coll.count, coll.typeSize, coll.align);
      placed := placed + [elems];
    }
  }

  lemma {:induction false} SumOfZeros(n: nat)
    ensures Sum(seq(n, _ => 0)) == 0
  {
    if n > 0 {
      SumOfZeros(n - 1);
      assert seq(n, _ => 0)[..n - 1] == seq(n - 1, _ => 0);
    }
  }

  lemma {:induction false} BytesMono(colls: seq<Coll>, k: nat)
    requires k <= |colls|
    ensures Bytes(colls[..k]) <= Bytes(colls)
    decreases |colls| - k
  {
    if k < |colls| {
      BytesMono(colls, k + 1);
      assert colls[..k + 1][..k] == colls[..k];
    } else {
      assert colls[..k] == colls;
    }
  }

  // ---------------------------------------------------------------- the least loaded channels

  /** A position of the largest load among the chosen channels. */
  predicate IsMax(loads: seq<nat>, least: seq<nat>, at: nat) {
    && at < |least| && (forall b :: 0 <= b < |least| ==> least[b] < |loads|)
    && (forall b :: 0 <= b < |least| ==> loads[least[b]] <= loads[least[at]])
  }

  predicate Distinct(s: seq<nat>) { forall i, j :: 0 <= i < j < |s| ==> s[i] != s[j] }

  /** The inner loop that finds the most loaded of the chosen channels. */
  method FindMax(loads: seq<nat>, least: seq<nat>) returns (at: nat)
    requires least != [] && forall b :: 0 <= b < |least| ==> least[b] < |loads|
    ensures IsMax(loads, least, at)
  {
    at := 0;
    for b := 1 to |least|
      invariant at < b && forall d :: 0 <= d < b ==> loads[least[d]] <= loads[least[at]]
    {
      if loads[least[at]] < loads[least[b]] { at := b; }
    }
  }

  lemma Replaced(s: seq<nat>, at: nat, c: nat, d: nat)
    requires at < |s|
    ensures d in s ==> d == s[at] || d in s[at := c]
    ensures c in s[at := c]
  {
    assert s[at := c][at] == c;
    if d in s {
      var b :| 0 <= b < |s| && s[b] == d;
      if b != at { assert s[at := c][b] == d; }
    }
  }

  /** The chosen channels are among the first `c`, all different, and no other of these carries less than `max`. */
  predicate Chosen(loads: seq<nat>, least: seq<nat>, c: nat, max: nat) {
    && c <= |loads| && Distinct(least) && (forall b :: 0 <= b < |least| ==> least[b] < c)
    && (forall d: nat :: d < c && d !in least ==> max <= loads[d])
  }

  lemma ReplaceMax(loads: seq<nat>, least: seq<nat>, c: nat, at: nat)
    requires IsMax(loads, least, at) && c < |loads| && Chosen(loads, least, c, loads[least[at]]) && loads[c] < loads[least[at]]
    ensures var least' := least[at := c];
      && Chosen(loads, least', c + 1, loads[least[at]])
      && forall b :: 0 <= b < |least'| ==> least'[b] < |loads| && loads[least'[b]] <= loads[least[at]]
  {
    forall d: nat | d < c + 1 && d !in least[at := c] ensures loads[least[at]] <= loads[d] { Replaced(least, at, c, d); }
  }

  /** Different channels, none more loaded than one that is not among them. */
  predicate LeastOf(loads: seq<nat>, least: seq<nat>) {
    && Distinct(least) && (forall b :: 0 <= b < |least| ==> least[b] < |loads|)
    && (forall b, c: nat :: 0 <= b < |least| && c < |loads| && c !in least ==> loads[least[b]] <= loads[c])
  }

  /** The selection of addTunedCollToPlan: different channels, none more loaded than one that was not chosen. */
  method LeastLoaded(loads: seq<nat>, n: nat) returns (least: seq<nat>)
    requires 1 <= n <= |loads|
    ensures |least| == n && LeastOf(loads, least)
  {
    least := seq(n, i requires 0 <= i < n => i);
    var at := FindMax(loads, least);
    forall d: nat | d < n ensures d in least { assert least[d] == d; }
    for c := n to |loads|
      invariant |least| == n && IsMax(loads, least, at) && Chosen(loads, least, c, loads[least[at]])
    {
      if loads[c] < loads[least[at]] {
        ReplaceMax(loads, least, c, at);
        least := least[at := c];
        at := FindMax(loads, least);
      }
    }
  }

  /** Elements per channel and number of channels that get some. */
  method Divide(count: nat, channels: nat, align: nat) returns (per: nat, n: nat)
    requires channels >= 1 && count >= 1 && align >= 1
    ensures per % align == 0 && DivUp(count, channels) <= per < DivUp(count, channels) + align
    ensures 1 <= n <= channels && Size(n - 1, per) < count <= Size(n, per)
  {
    per := DivUp(DivUp(count, channels), align) * align;
    PerChannel(count, channels, align);
    n := DivUp(count, per);
    FewerChannels(count, channels, per, n);
  }

  /** addTunedCollToPlan: equal shares, rounded up, on the least loaded channels; every chosen channel gets some and nothing is left. */
  method AddTunedColl(loads: seq<nat>, channels: nat, count: nat, typeSize: nat, align: nat)
    returns (loads': seq<nat>, elems: seq<Elem>, least: seq<nat>, per: nat)
    requires 1 <= channels <= |loads| && count >= 1 && align >= 1
    ensures Tiles(elems, count, |loads|) && loads' == Loaded(loads, elems, typeSize)
    ensures |elems| == |least| <= channels && OnChannels(elems, least) && LeastOf(loads, least)
    ensures per % align == 0 && DivUp(count, channels) <= per < DivUp(count, channels) + align
    ensures EqualShares(elems, per, |elems| - 1) && AlignedOffsets(elems, align)
  {
    var n;
    per, n := Divide(count, channels, align);
    least := LeastLoaded(loads, n);
    loads', elems := loads, [];
    var rest: nat, offset: nat := count, 0;
    PlacedNone(loads, typeSize, align, per, least);
    hide Placed, Tiles, Size, Loaded, DivUp, EqualShares, LeastOf, OnChannels, Multiple, AlignedOffsets;
    var bid: nat := 0;
    while bid < n && rest > 0
      invariant bid <= n && |elems| == bid && |loads'| == |loads| && offset + rest == count && offset == Min(Size(bid, per), count)
      invariant Placed(loads, typeSize, align, per, least, loads', elems, offset, rest > 0)
      decreases n - bid
    {
      var workCount := Min(per, rest);
      PlacedNext(loads, typeSize, align, per, least, loads', elems, offset, workCount, rest);
      SizeAdds(bid, 1, per);
      SizeOne(per);
      loads' := loads'[least[bid] := loads'[least[bid]] + Size(workCount, typeSize)];
      elems := elems + [Elem(least[bid], offset, workCount)];
      rest, offset := rest - workCount, offset + workCount;
      bid := bid + 1;
    }
    PlacedAll(loads, typeSize, align, per, least, loads', elems, offset, rest > 0);
    if bid < n { SizeAdds(bid, n - 1 - bid, per); }
  }

  lemma SizeOne(per: nat)
    ensures Size(1, per) == per
  {
  }

  /** The first elements of the collective are on the first chosen channels, in shares of `per`; only the last one can be smaller. */
  ghost predicate Placed(loads: seq<nat>, typeSize: nat, align: nat, per: nat, least: seq<nat>, loads': seq<nat>, elems: seq<Elem>, offset: nat, more: bool) {
    && LeastOf(loads, least) && OnChannels(elems, least) && Tiles(elems, offset, |loads|)
    && loads' == Loaded(loads, elems, typeSize) && EqualShares(elems, per, if more then |elems| else |elems| - 1)
    && Multiple(per, align) && AlignedOffsets(elems, align) && (more ==> Multiple(offset, align))
  }

  lemma PlacedNone(loads: seq<nat>, typeSize: nat, align: nat, per: nat, least: seq<nat>)
    requires LeastOf(loads, least) && Multiple(per, align)
    ensures Placed(loads, typeSize, align, per, least, loads, [], 0, true) && Size(0, per) == 0
  {
  }

  lemma PlacedNext(loads: seq<nat>, typeSize: nat, align: nat, per: nat, least: seq<nat>, loads': seq<nat>, elems: seq<Elem>, offset: nat, part: nat, rest: nat)
    requires Placed(loads, typeSize, align, per, least, loads', elems, offset, true) && |elems| < |least| && 1 <= part == Min(per, rest)
    ensures least[|elems|] < |loads'| == |loads|
    ensures var e := Elem(least[|elems|], offset, part);
      Placed(loads, typeSize, align, per, least, loads'[e.channel := loads'[e.channel] + Size(part, typeSize)], elems + [e], offset + part, rest - part > 0)
  {
    hide Tiles, Size, Loaded, EqualShares, LeastOf, OnChannels, Sum, Multiple, AlignedOffsets;
    var e := Elem(least[|elems|], offset, part);
    OnNext(loads, least, elems, e);
    AppendTiles(elems, offset, |loads|, e);
    AppendLoad(loads, elems, e, typeSize);
    EqualNext(elems, e, per);
    AlignedNext(elems, e, align);
    if part == per { MultipleSum(offset, part, align); }
  }

  lemma PlacedAll(loads: seq<nat>, typeSize: nat, align: nat, per: nat, least: seq<nat>, loads': seq<nat>, elems: seq<Elem>, offset: nat, more: bool)
    requires Placed(loads, typeSize, align, per, least, loads', elems, offset, more)
    ensures LeastOf(loads, least) && OnChannels(elems, least) && Tiles(elems, offset, |loads|)
    ensures loads' == Loaded(loads, elems, typeSize) && EqualShares(elems, per, |elems| - 1)
    ensures AlignedOffsets(elems, align)
  {
    hide Tiles, Loaded, LeastOf, OnChannels, AlignedOffsets, Multiple;
  }

  /** Element number i is on channel number i of the chosen ones. */
  predicate OnChannels(elems: seq<Elem>, least: seq<nat>) {
    |elems| <= |least| && forall i :: 0 <= i < |elems| ==> elems[i].channel == least[i]
  }

  lemma OnNext(loads: seq<nat>, least: seq<nat>, elems: seq<Elem>, e: Elem)
    requires LeastOf(loads, least) && OnChannels(elems, least) && |elems| < |least| && e.channel == least[|elems|]
    ensures OnChannels(elems + [e], least) && e.channel < |loads| && forall i :: 0 <= i < |elems| ==> elems[i].channel != e.channel
  {
  }

  /** No share is more than `per`, and the first `n` are exactly that. */
  predicate EqualShares(elems: seq<Elem>, per: nat, n: int) {
    && (forall i :: 0 <= i < |elems| ==> elems[i].count <= per)
    && (forall i :: 0 <= i < n && i < |elems| ==> elems[i].count == per)
  }

  lemma EqualNext(elems: seq<Elem>, e: Elem, per: nat)
    requires EqualShares(elems, per, |elems|) && e.count <= per
    ensures EqualShares(elems + [e], per, |elems|)
    ensures e.count == per ==> EqualShares(elems + [e], per, |elems| + 1)
  {
  }

  lemma PerChannel(count: nat, channels: nat, align: nat)
    requires channels >= 1 && count >= 1 && align >= 1
    ensures var per := DivUp(DivUp(count, channels), align) * align;
      per % align == 0 && 1 <= DivUp(count, channels) <= per < DivUp(count, channels) + align
  {
    var share := DivUp(count, channels);
    DivUnique(DivUp(share, align) * align, align, DivUp(share, align), 0);
    if DivUp(count, channels) == 0 { assert false; }
  }

  lemma FewerChannels(count: nat, channels: nat, per: nat, n: nat)
    requires channels >= 1 && count >= 1 && per >= DivUp(count, channels) && per >= 1 && n == DivUp(count, per)
    ensures 1 <= n <= channels && (n - 1) * per < count <= n * per
  {
    var share := DivUp(count, channels);
    MulMono(share, per, channels);
    assert (n - 1) * per == n * per - per;
    if n == 0 { assert false; }
    if n > channels { MulMono(channels, n - 1, per); }
  }
}
