/**
 The pool of proxy operations shared by the ranks of a node and the proxy progress thread
 (src/proxy.cc). Operations live in one array; every list is threaded through the `next` field.
 Each rank takes operations from its private free list, or swaps out the shared one, fills them,
 and posts them; the progress thread takes what is posted, consumes it in order and gives the
 operations back, racing with the rank for the head of the shared free list.
 */
module ProxyPool {
  import opened Arith

  /** What a rank asks the proxy to do. */
  datatype Op<V> = Op(opCount: nat, data: V)

  /** Where a rank is inside ncclLocalOpAppend. */
  datatype Pc<V> =
    | Ready
    | Swapping(op: Op<V>, seen: int)   // read the shared free list's head, not yet swapped it out
    | Posting                          // MAX_OPS_PER_PEER operations pending
    | Failed                           // ... all of one opCount: internal error

  datatype Rank<V> = Rank(freeOp: int, nextOps: int, nextOpsEnd: int, count: nat, pc: Pc<V>)

  /** Where the progress thread is inside ncclProxyGetPostedOps. */
  datatype Phase =
    | Idle
    | Draining(lastOpCount: nat, lastPeer: int, count: nat)
    | Returning(peer: nat)             // about to give back this peer's operations
    | Linked(peer: nat, oldFree: int)  // read the shared head and linked the returned list to it
    | Recycled(peer: nat)              // the swap found the shared list taken
    | Broken                           // the swap found another list: internal error

  datatype Place = Private | Shared | Pending | Posted | Taken | Returned

  datatype Lists = Lists(priv: seq<nat>, shared: seq<nat>, pending: seq<nat>, returned: seq<nat>)

  /**
   The pool. The fields from `lists` on record which operations are on which list and what was
   appended and consumed, for the specification; no step looks at them.
   */
  datatype Pool<V> = Pool(
    next: seq<int>, ops: seq<Op<V>>, freeOps: seq<int>, ranks: seq<Rank<V>>,
    nextOps: int, nextOpsEnd: int, taken: int, phase: Phase, freeOp: seq<int>, freeOpEnd: seq<int>,
    lists: seq<Lists>, posted: seq<nat>, draining: seq<nat>, place: seq<Place>,
    appended: seq<seq<Op<V>>>, drained: seq<seq<Op<V>>>)

  /** Ranks, MAX_OPS_PER_PEER, and the append batch size. */
  datatype Config = Config(ranks: nat, max: nat, batch: nat)

  function Size(g: Config): nat { g.ranks * g.max }

  /** The rank an operation belongs to. */
  function Peer(g: Config, i: nat): nat
    requires g.max >= 1
  {
    i / g.max
  }

  predicate Shaped<V>(g: Config, s: Pool<V>) {
    && g.max >= 1
    && |s.next| == |s.ops| == |s.place| == Size(g)
    && |s.freeOps| == |s.ranks| == |s.freeOp| == |s.freeOpEnd| == g.ranks
    && |s.lists| == |s.appended| == |s.drained| == g.ranks
  }

  predicate IsIx<V>(s: Pool<V>, i: int) { 0 <= i < |s.next| && |s.ops| == |s.place| == |s.next| }

  // ---------------------------------------------------------------- initialisation

  /** next as proxyProgressInit leaves it. */
  function InitialNext(g: Config): (next: seq<int>)
    requires g.max >= 1
    ensures |next| == Size(g)
  {
    seq(Size(g), i requires 0 <= i < Size(g) => if (i + 1) % g.max == 0 then -1 else i + 1)
  }

  function Own(g: Config, r: nat): (own: seq<nat>)
    ensures |own| == g.max
  {
    seq(g.max, k requires 0 <= k < g.max => r * g.max + k)
  }

  function InitialPool<V>(g: Config, ops: seq<Op<V>>): Pool<V>
    requires g.max >= 1 && |ops| == Size(g)
  {
    Pool(InitialNext(g), ops, seq(g.ranks, r requires 0 <= r < g.ranks => r * g.max),
         seq(g.ranks, _ => Rank(-1, -1, -1, 0, Ready)), -1, -1, -1, Idle, seq(g.ranks, _ => -1), seq(g.ranks, _ => -1),
         seq(g.ranks, r requires 0 <= r < g.ranks => Lists([], Own(g, r), [], [])), [], [], seq(Size(g), _ => Shared),
         seq(g.ranks, _ => []), seq(g.ranks, _ => []))
  }

  // ---------------------------------------------------------------- the appending rank

  /** Fill operation `i` and hang it at the end of the rank's pending list. */
  function Fill<V>(g: Config, s: Pool<V>, r: nat, i: nat, op: Op<V>, free: int): Pool<V>
    requires Shaped(g, s) && r < g.ranks && i < Size(g)
    requires s.ranks[r].nextOps == -1 || IsIx(s, s.ranks[r].nextOpsEnd)
  {
    var k := s.ranks[r];
    var linked := if k.nextOps == -1 then s.next[i := -1] else s.next[i := -1][k.nextOpsEnd := i];
    s.(next := linked, ops := s.ops[i := op],
       ranks := s.ranks[r := Rank(free, if k.nextOps == -1 then i else k.nextOps, i, k.count + 1,
                                  if k.count + 1 == g.max then Posting else Ready)])
  }

  /** The operations the cutting loop visits: from `op` up to but not including `end`. */
  function Walk(next: seq<int>, op: int, end: int, fuel: nat): (walk: seq<int>)
    ensures forall k :: 0 <= k < |walk| ==> 0 <= walk[k] < |next|
    decreases fuel
  {
    if op == end || fuel == 0 || !(0 <= op < |next|) then [] else [op] + Walk(next, next[op], end, fuel - 1)
  }

  /** Length of the longest prefix that ends in an operation with another opCount. */
  function CutLength<V>(ops: seq<Op<V>>, walk: seq<int>, lastOpCount: nat): (n: nat)
    requires forall k :: 0 <= k < |walk| ==> 0 <= walk[k] < |ops|
    ensures n <= |walk| && (n > 0 ==> ops[walk[n - 1]].opCount != lastOpCount)
    ensures forall k :: n <= k < |walk| ==> ops[walk[k]].opCount == lastOpCount
  {
    if walk == [] then 0
    else if ops[walk[|walk| - 1]].opCount != lastOpCount then |walk|
    else CutLength(ops, walk[..|walk| - 1], lastOpCount)
  }

  /**
   The loop of ncclLocalOpAppend that looks for where to cut the pending chain: behind the last operation with
   another opCount than the last one. There is none exactly if all pending operations share one opCount.
   */
  method FindCut<V>(next: seq<int>, ops: seq<Op<V>>, nextOps: int, nextOpsEnd: int, ghost list: seq<nat>)
    returns (lastOp: int, toSend: nat)
    requires |next| == |ops| && list != [] && nextOps == list[0] && nextOpsEnd == list[|list| - 1]
    requires forall k :: 0 <= k < |list| ==> list[k] < |next|
    requires forall j, k :: 0 <= j < k < |list| ==> list[j] != list[k]
    requires forall k :: 0 <= k < |list| - 1 ==> next[list[k]] == list[k + 1]
    ensures toSend == CutLength(ops, list[..|list| - 1], ops[list[|list| - 1]].opCount)
    ensures lastOp == if toSend == 0 then -1 else list[toSend - 1]
    ensures toSend < |list| && (toSend > 0 ==> ops[list[toSend - 1]].opCount != ops[list[|list| - 1]].opCount)
    ensures forall k :: toSend <= k < |list| ==> ops[list[k]].opCount == ops[list[|list| - 1]].opCount
    ensures lastOp == -1 <==> forall k :: 0 <= k < |list| ==> ops[list[k]].opCount == ops[list[|list| - 1]].opCount
  {
    var lastOpCount := ops[nextOpsEnd].opCount;
    lastOp, toSend := -1, 0;
    var count := 0;
    var op := nextOps;
    assert list[..0] == [];
    while op != nextOpsEnd
      invariant 0 <= count < |list| && op == list[count]
      invariant toSend == CutLength(ops, list[..count], lastOpCount)
      invariant lastOp == if toSend == 0 then -1 else list[toSend - 1]
      invariant toSend <= count && (toSend > 0 ==> ops[list[toSend - 1]].opCount != lastOpCount)
      invariant forall k :: toSend <= k < count ==> ops[list[k]].opCount == lastOpCount
      decreases |list| - count
    {
      assert list[..count + 1][..count] == list[..count];
      count := count + 1;
      if ops[op].opCount != lastOpCount {
        lastOp, toSend := op, count;
      }
      op := next[op];
    }
    assert count == |list| - 1;
  }

  /** ncclProxyPost. */
  function Post<V>(s: Pool<V>, first: int, last: int): Pool<V>
    requires s.nextOps == -1 || IsIx(s, s.nextOpsEnd)
  {
    s.(next := if s.nextOps == -1 then s.next else s.next[s.nextOpsEnd := first],
       nextOps := if s.nextOps == -1 then first else s.nextOps, nextOpsEnd := last)
  }

  // ---------------------------------------------------------------- the progress thread

  /** The batch counter after looking at one more operation. */
  function Batch(g: Config, opCount: nat, peer: nat, d: Phase): nat
    requires d.Draining?
  {
    d.count + if (d.lastOpCount != 0 && opCount != d.lastOpCount) || (d.lastPeer != -1 && peer != d.lastPeer) then 1 else 0
  }

  predicate More<V>(g: Config, s: Pool<V>)
    requires s.phase.Draining? && Shaped(g, s) && (s.taken == -1 || IsIx(s, s.taken))
  {
    s.taken != -1 && Batch(g, s.ops[s.taken].opCount, Peer(g, s.taken), s.phase) != g.batch + 1
  }

  /** Consume one operation and put it at the front of the list to return to its peer. */
  function Consume<V>(g: Config, s: Pool<V>): Pool<V>
    requires Shaped(g, s) && s.phase.Draining? && IsIx(s, s.taken) && Peer(g, s.taken) < g.ranks
  {
    var i := s.taken;
    var p := Peer(g, i);
    s.(taken := s.next[i],
       next := if s.freeOp[p] == -1 then s.next else s.next[i := s.freeOp[p]],
       freeOpEnd := if s.freeOp[p] == -1 then s.freeOpEnd[p := i] else s.freeOpEnd,
       freeOp := s.freeOp[p := i],
       phase := Draining(s.ops[i].opCount, p, Batch(g, s.ops[i].opCount, p, s.phase)),
       drained := s.drained[p := s.drained[p] + [s.ops[i]]])
  }

  // ---------------------------------------------------------------- events

  datatype Event<V> =
    | Append(r: nat, op: Op<V>)    // take an operation from the private free list
    | Look(r: nat, op: Op<V>)      // private list empty: read the shared head
    | Swap(r: nat)                 // compare-and-swap the shared head with -1
    | PostPrefix(r: nat)           // post all but the operations of the last opCount
    | PostAll(r: nat)              // ncclProxyStart
    | Take                         // the progress thread takes the posted list
    | Resume                       // ... or goes on with what it had taken
    | Drain                        // ... consumes one operation
    | EndDrain
    | Return                       // ... links a returned list to the shared one, or skips the peer
    | Publish                      // ... stores or swaps in the new head
    | Repair                       // ... the swap failed: unlink and store
    | EndReturn

  predicate Enabled<V>(g: Config, s: Pool<V>, e: Event<V>)
    requires Shaped(g, s)
  {
    match e
    case Append(r, op) => r < g.ranks && s.ranks[r].pc.Ready? && IsIx(s, s.ranks[r].freeOp) && PendingOk(s, r)
    case Look(r, op) => r < g.ranks && s.ranks[r].pc.Ready? && s.ranks[r].freeOp == -1 && s.freeOps[r] != -1
    case Swap(r) => r < g.ranks && s.ranks[r].pc.Swapping? && IsIx(s, s.ranks[r].pc.seen) && PendingOk(s, r)
    case PostPrefix(r) => r < g.ranks && s.ranks[r].pc.Posting? && IsIx(s, s.ranks[r].nextOpsEnd) && PostedOk(s)
    case PostAll(r) => r < g.ranks && s.ranks[r].pc.Ready? && s.ranks[r].nextOps != -1 && PostedOk(s)
    case Take => s.phase.Idle? && s.taken == -1 && s.nextOps != -1
    case Resume => s.phase.Idle? && s.taken != -1
    case Drain => s.phase.Draining? && IsIx(s, s.taken) && Peer(g, s.taken) < g.ranks && More(g, s)
    case EndDrain => s.phase.Draining? && (s.taken == -1 || IsIx(s, s.taken)) && !More(g, s)
    case Return => s.phase.Returning? && s.phase.peer < g.ranks &&
                   (s.freeOp[s.phase.peer] != -1 ==> IsIx(s, s.freeOpEnd[s.phase.peer]))
    case Publish => s.phase.Linked? && s.phase.peer < g.ranks
    case Repair => s.phase.Recycled? && s.phase.peer < g.ranks && IsIx(s, s.freeOpEnd[s.phase.peer])
    case EndReturn => s.phase.Returning? && s.phase.peer == g.ranks
  }

  predicate PendingOk<V>(s: Pool<V>, r: nat)
    requires r < |s.ranks|
  {
    s.ranks[r].nextOps == -1 || IsIx(s, s.ranks[r].nextOpsEnd)
  }

  predicate PostedOk<V>(s: Pool<V>) { s.nextOps == -1 || IsIx(s, s.nextOpsEnd) }

  /** The record of an operation filled by rank `r` and taken from the front of one of its free lists. */
  function Filled<V>(s: Pool<V>, r: nat, l: Lists, i: nat, op: Op<V>): Pool<V>
    requires r < |s.lists| && r < |s.appended| && i < |s.place|
  {
    s.(lists := s.lists[r := l.(pending := l.pending + [i])], appended := s.appended[r := s.appended[r] + [op]],
       place := s.place[i := Pending])
  }

  /** The places once the operations of `moved` have gone to `p`. */
  function Moved(place: seq<Place>, moved: seq<nat>, p: Place): (place': seq<Place>)
    ensures |place'| == |place|
  {
    seq(|place|, i requires 0 <= i < |place| => if i in moved then p else place[i])
  }

  /** Swapping out the shared list makes it the private one; its first operation is then filled. */
  function SwapOut<V>(g: Config, s: Pool<V>, r: nat): Pool<V>
    requires Shaped(g, s) && Enabled(g, s, Swap(r))
  {
    var i, op := s.ranks[r].pc.seen, s.ranks[r].pc.op;
    var l := s.lists[r];
    Filled(Fill(g, s.(freeOps := s.freeOps[r := -1], place := Moved(s.place, l.shared, Private)), r, i, op, s.next[i]),
           r, l.(priv := if l.shared == [] then [] else l.shared[1..], shared := []), i, op)
  }

  /** The record of rank `r` posting its first `n` pending operations. */
  function Sent<V>(s: Pool<V>, r: nat, n: nat): Pool<V>
    requires r < |s.lists| && n <= |s.lists[r].pending|
  {
    var p := s.lists[r].pending;
    s.(lists := s.lists[r := s.lists[r].(pending := p[n..])], posted := s.posted + p[..n], place := Moved(s.place, p[..n], Posted))
  }

  /** What the cutting loop sees, and the length of the prefix it decides to post. */
  function Visited<V>(g: Config, s: Pool<V>, r: nat): (walk: seq<int>)
    requires Shaped(g, s) && r < g.ranks
    ensures forall k :: 0 <= k < |walk| ==> 0 <= walk[k] < Size(g)
  {
    Walk(s.next, s.ranks[r].nextOps, s.ranks[r].nextOpsEnd, Size(g))
  }

  function CutOf<V>(g: Config, s: Pool<V>, r: nat): (n: nat)
    requires Shaped(g, s) && r < g.ranks && IsIx(s, s.ranks[r].nextOpsEnd)
    ensures n <= |Visited(g, s, r)|
  {
    CutLength(s.ops, Visited(g, s, r), s.ops[s.ranks[r].nextOpsEnd].opCount)
  }

  /** Cut the pending chain after its first `n` operations and post them. */
  function PostCut<V>(g: Config, s: Pool<V>, r: nat, n: nat): Pool<V>
    requires Shaped(g, s) && r < g.ranks && PostedOk(s) && 1 <= n <= |Visited(g, s, r)|
  {
    var k := s.ranks[r];
    var lastOp := Visited(g, s, r)[n - 1];
    var cut := s.(next := s.next[lastOp := -1],
                  ranks := s.ranks[r := Rank(k.freeOp, s.next[lastOp], k.nextOpsEnd, if k.count < n then 0 else k.count - n, Ready)]);
    Sent(Post(cut, k.nextOps, lastOp), r, Min(n, |s.lists[r].pending|))
  }

  function Apply<V>(g: Config, s: Pool<V>, e: Event<V>): (s': Pool<V>)
    requires Shaped(g, s) && Enabled(g, s, e)
    ensures Shaped(g, s')
  {
    match e
    case Append(r, op) =>
      var i := s.ranks[r].freeOp;
      var l := s.lists[r];
      Filled(Fill(g, s, r, i, op, s.next[i]), r, l.(priv := if l.priv == [] then [] else l.priv[1..]), i, op)
    case Look(r, op) => s.(ranks := s.ranks[r := s.ranks[r].(pc := Swapping(op, s.freeOps[r]))])
    case Swap(r) =>
      var k := s.ranks[r];
      if s.freeOps[r] == k.pc.seen then SwapOut(g, s, r)
      else s.(ranks := s.ranks[r := k.(pc := Swapping(k.pc.op, s.freeOps[r]))])
    case PostPrefix(r) =>
      if CutOf(g, s, r) == 0 then s.(ranks := s.ranks[r := s.ranks[r].(pc := Failed)]) else PostCut(g, s, r, CutOf(g, s, r))
    case PostAll(r) =>
      var k := s.ranks[r];
      Sent(Post(s.(ranks := s.ranks[r := Rank(k.freeOp, -1, -1, 0, Ready)]), k.nextOps, k.nextOpsEnd), r, |s.lists[r].pending|)
    case Take =>
      s.(taken := s.nextOps, nextOps := -1, nextOpsEnd := -1, phase := Draining(0, -1, 0),
         draining := s.posted, posted := [], place := Moved(s.place, s.posted, Taken))
    case Resume => s.(phase := Draining(0, -1, 0))
    case Drain =>
      var p := Peer(g, s.taken);
      var l := s.lists[p];
      Consume(g, s).(draining := if s.draining == [] then [] else s.draining[1..], place := s.place[s.taken := Returned],
                     lists := s.lists[p := l.(returned := [s.taken] + l.returned)])
    case EndDrain => s.(phase := Returning(0))
    case Return =>
      var p := s.phase.peer;
      if s.freeOp[p] == -1 then s.(phase := Returning(p + 1))
      else s.(next := s.next[s.freeOpEnd[p] := s.freeOps[p]], phase := Linked(p, s.freeOps[p]))
    case Publish =>
      var p := s.phase.peer;
      if s.phase.oldFree == -1 || s.freeOps[p] == s.phase.oldFree then GivenBack(s, p)
      else if s.freeOps[p] != -1 then s.(phase := Broken)
      else s.(phase := Recycled(p))
    case Repair => GivenBack(s.(next := s.next[s.freeOpEnd[s.phase.peer] := -1]), s.phase.peer)
    case EndReturn => s.(phase := Idle)
  }

  /** The returned list becomes the shared one, in front of what was there. The progress thread has no further use for its own head. */
  function GivenBack<V>(s: Pool<V>, p: nat): Pool<V>
    requires p < |s.freeOps| && p < |s.freeOp| && p < |s.lists|
  {
    var l := s.lists[p];
    s.(freeOps := s.freeOps[p := s.freeOp[p]], freeOp := s.freeOp[p := -1], phase := Returning(p + 1),
       lists := s.lists[p := l.(shared := l.returned + l.shared, returned := [])], place := Moved(s.place, l.returned, Shared))
  }

  ghost predicate Run<V>(g: Config, ops: seq<Op<V>>, trace: seq<Pool<V>>, events: seq<Event<V>>) {
    && g.max >= 1 && |ops| == Size(g)
    && |trace| == |events| + 1
    && trace[0] == InitialPool(g, ops)
    && (forall i :: 0 <= i < |events| ==>
          Shaped(g, trace[i]) && Enabled(g, trace[i], events[i]) && trace[i + 1] == Apply(g, trace[i], events[i]))
  }
}
