/** The proxy op pool over whole runs: every operation is on exactly one list, and none is lost, repeated or reordered. */
module ProxyPoolSafety {
  import opened Arith
  import opened ProxyPool

  // ---------------------------------------------------------------- lists

  /** Names a list: one of a rank's own, or one shared by all (rank 0 then). */
  datatype Key = Key(place: Place, rank: nat)

  predicate Valid(g: Config, key: Key) {
    if key.place.Posted? || key.place.Taken? then key.rank == 0 else key.rank < g.ranks
  }

  /** The list an operation is recorded to be on. */
  function KeyOf(g: Config, place: seq<Place>, i: nat): Key
    requires g.max >= 1 && i < |place|
  {
    Key(place[i], if place[i].Posted? || place[i].Taken? then 0 else Peer(g, i))
  }

  function TheList<V>(s: Pool<V>, key: Key): seq<nat>
    requires key.rank < |s.lists| || key.place.Posted? || key.place.Taken?
  {
    match key.place
    case Private => s.lists[key.rank].priv
    case Shared => s.lists[key.rank].shared
    case Pending => s.lists[key.rank].pending
    case Returned => s.lists[key.rank].returned
    case Posted => s.posted
    case Taken => s.draining
  }

  /** The field that holds the head of a list. */
  function HeadField<V>(g: Config, s: Pool<V>, key: Key): int
    requires Shaped(g, s) && Valid(g, key)
  {
    match key.place
    case Private => s.ranks[key.rank].freeOp
    case Shared => s.freeOps[key.rank]
    case Pending => s.ranks[key.rank].nextOps
    case Returned => s.freeOp[key.rank]
    case Posted => s.nextOps
    case Taken => s.taken
  }

  function Head(list: seq<nat>): int { if list == [] then -1 else list[0] }

  predicate Distinct(list: seq<nat>) { forall j, k :: 0 <= j < k < |list| ==> list[j] != list[k] }

  /** The list holds exactly the operations with this key, each once. */
  ghost predicate Holds(g: Config, place: seq<Place>, list: seq<nat>, key: Key)
    requires g.max >= 1
  {
    && Distinct(list)
    && (forall k :: 0 <= k < |list| ==> list[k] < |place| && KeyOf(g, place, list[k]) == key)
    && (forall i: nat :: i < |place| && KeyOf(g, place, i) == key ==> i in list)
  }

  /** Consecutive operations are linked by next. */
  predicate Links(next: seq<int>, list: seq<nat>) {
    && (forall k :: 0 <= k < |list| ==> list[k] < |next|)
    && (forall k :: 0 <= k < |list| - 1 ==> next[list[k]] == list[k + 1])
  }

  predicate Ends(next: seq<int>, list: seq<nat>, end: int)
    requires Links(next, list)
  {
    list != [] ==> next[list[|list| - 1]] == end
  }

  /** A list threaded through next: exactly the operations with this key, linked, and closed unless still being returned. */
  ghost predicate IsList(g: Config, next: seq<int>, place: seq<Place>, list: seq<nat>, key: Key)
    requires g.max >= 1
  {
    && |next| == |place|
    && Holds(g, place, list, key)
    && Links(next, list)
    && (!key.place.Returned? ==> Ends(next, list, -1))
  }

  ghost predicate ListOk<V>(g: Config, s: Pool<V>, key: Key)
    requires Shaped(g, s) && Valid(g, key)
  {
    IsList(g, s.next, s.place, TheList(s, key), key) && HeadField(g, s, key) == Head(TheList(s, key))
  }

  // ---------------------------------------------------------------- the invariant

  /** The contents of rank `r`'s operations on a list. */
  function Data<V>(g: Config, ops: seq<Op<V>>, list: seq<nat>, r: nat): seq<Op<V>>
    requires g.max >= 1 && forall k :: 0 <= k < |list| ==> list[k] < |ops|
  {
    if list == [] then []
    else (if Peer(g, list[0]) == r then [ops[list[0]]] else []) + Data(g, ops, list[1..], r)
  }

  /** Operations of rank `r` appended and not yet consumed, oldest first. */
  function Queue<V>(s: Pool<V>, r: nat): seq<nat>
    requires r < |s.lists|
  {
    s.draining + s.posted + s.lists[r].pending
  }

  predicate InPool<V>(s: Pool<V>, list: seq<nat>) { forall k :: 0 <= k < |list| ==> list[k] < |s.ops| }

  predicate EndField(list: seq<nat>, end: int) { list != [] ==> end == list[|list| - 1] }

  ghost predicate PcOk<V>(g: Config, s: Pool<V>, r: nat)
    requires Shaped(g, s) && r < g.ranks
  {
    var k, l := s.ranks[r], s.lists[r];
    && k.count == |l.pending|
    && EndField(l.pending, k.nextOpsEnd)
    && match k.pc
       case Ready => k.count < g.max
       case Swapping(op, seen) => k.count < g.max && l.priv == [] && l.shared != [] && 0 <= seen < Size(g)
       case Posting => k.count == g.max
       case Failed => k.count == g.max
  }

  /** What the progress thread holds of rank `r`, given where it is. */
  ghost predicate ReturnOk<V>(g: Config, s: Pool<V>, r: nat)
    requires Shaped(g, s) && r < g.ranks
  {
    var l := s.lists[r];
    && EndField(l.returned, s.freeOpEnd[r])
    && match s.phase
       case Idle => l.returned == []
       case Draining(_, _, _) => true
       case Returning(p) => r < p ==> l.returned == []
       case Linked(p, was) =>
         && (r < p ==> l.returned == [])
         && (r == p ==> l.returned != [] && IsIx(s, s.freeOpEnd[r]) && s.next[s.freeOpEnd[r]] == was &&
                        (l.shared == [] || l.shared[0] == was))
       case Recycled(p) => (r < p ==> l.returned == []) && (r == p ==> l.returned != [] && l.shared == [])
       case Broken => false
  }

  ghost predicate OrderOk<V>(g: Config, s: Pool<V>, r: nat)
    requires Shaped(g, s) && r < g.ranks
  {
    InPool(s, Queue(s, r)) && s.appended[r] == s.drained[r] + Data(g, s.ops, Queue(s, r), r)
  }

  ghost predicate PhaseOk<V>(g: Config, s: Pool<V>) {
    match s.phase
    case Draining(lastOpCount, lastPeer, count) => lastPeer == -1 ==> s.draining != [] && lastOpCount == count == 0
    case Returning(p) => p <= g.ranks
    case Linked(p, _) => p < g.ranks
    case Recycled(p) => p < g.ranks
    case Broken => false
    case _ => true
  }

  ghost predicate Inv<V>(g: Config, s: Pool<V>) {
    && Shaped(g, s)
    && (forall key :: Valid(g, key) ==> ListOk(g, s, key))
    && (forall r :: 0 <= r < g.ranks ==> PcOk(g, s, r) && ReturnOk(g, s, r) && OrderOk(g, s, r))
    && EndField(s.posted, s.nextOpsEnd)
    && PhaseOk(g, s)
  }

  // ---------------------------------------------------------------- arithmetic of the layout

  lemma PeerInRange(g: Config, i: nat)
    requires g.max >= 1 && i < Size(g)
    ensures Peer(g, i) < g.ranks
  {
    DivModFacts(i, g.max);
    if i / g.max >= g.ranks { MulMono(g.ranks, i / g.max, g.max); }
  }

  lemma OwnIsPeer(g: Config, r: nat, k: nat)
    requires g.max >= 1 && r < g.ranks && k < g.max
    ensures r * g.max + k < Size(g) && Peer(g, r * g.max + k) == r
    ensures InitialNext(g)[r * g.max + k] == if k + 1 == g.max then -1 else r * g.max + k + 1
  {
    MulMono(r + 1, g.ranks, g.max);
    assert (r + 1) * g.max == r * g.max + g.max;
    DivUnique(r * g.max + k, g.max, r, k);
    if k + 1 == g.max {
      DivUnique(r * g.max + k + 1, g.max, r + 1, 0);
    } else {
      DivUnique(r * g.max + k + 1, g.max, r, k + 1);
    }
  }

  lemma PeerIsOwn(g: Config, i: nat)
    requires g.max >= 1 && i < Size(g)
    ensures Peer(g, i) < g.ranks && i in Own(g, Peer(g, i))
  {
    PeerInRange(g, i);
    DivModFacts(i, g.max);
    assert Own(g, Peer(g, i))[i % g.max] == i;
  }

  lemma InitialShared(g: Config, r: nat)
    requires g.max >= 1 && r < g.ranks
    ensures Distinct(Own(g, r)) && Links(InitialNext(g), Own(g, r)) && Ends(InitialNext(g), Own(g, r), -1)
    ensures forall k :: 0 <= k < g.max ==> Own(g, r)[k] < Size(g) && Peer(g, Own(g, r)[k]) == r
  {
    hide InitialNext, Size, Peer;
    forall k | 0 <= k < g.max
      ensures Own(g, r)[k] < Size(g) && Peer(g, Own(g, r)[k]) == r
      ensures InitialNext(g)[Own(g, r)[k]] == if k + 1 == g.max then -1 else Own(g, r)[k] + 1
    {
      OwnIsPeer(g, r, k);
    }
  }

  lemma InitialList<V>(g: Config, ops: seq<Op<V>>, key: Key)
    requires g.max >= 1 && |ops| == Size(g) && Valid(g, key)
    ensures ListOk(g, InitialPool(g, ops), key)
  {
    hide Own, InitialNext, Size, Peer;
    var s := InitialPool(g, ops);
    if key.place.Shared? {
      var list := Own(g, key.rank);
      InitialShared(g, key.rank);
      OwnStarts(g, key.rank);
      forall i: nat | i < Size(g) && KeyOf(g, s.place, i) == key ensures i in list { PeerIsOwn(g, i); }
    } else {
      assert TheList(s, key) == [];
    }
  }

  lemma InitialInv<V>(g: Config, ops: seq<Op<V>>)
    requires g.max >= 1 && |ops| == Size(g)
    ensures Inv(g, InitialPool(g, ops))
  {
    hide Own, InitialNext, Size, Peer, ListOk;
    var s := InitialPool(g, ops);
    forall key | Valid(g, key) ensures ListOk(g, s, key) { InitialList(g, ops, key); }
    forall r | 0 <= r < g.ranks ensures OrderOk(g, s, r) {
      assert Queue(s, r) == [];
    }
  }

  lemma OwnStarts(g: Config, r: nat)
    requires g.max >= 1
    ensures Own(g, r)[0] == r * g.max
  {
  }

  // ---------------------------------------------------------------- one list across a step

  /** The operations with this key are the same and linked as before. */
  ghost predicate Untouched(g: Config, next: seq<int>, place: seq<Place>, next': seq<int>, place': seq<Place>, key: Key)
    requires g.max >= 1
  {
    && |next| == |place| == |next'| == |place'|
    && (forall i: nat :: i < |place| ==> (KeyOf(g, place, i) == key <==> KeyOf(g, place', i) == key))
    && (forall i: nat :: i < |place| && KeyOf(g, place, i) == key ==> next'[i] == next[i])
  }

  lemma ListKept(g: Config, next: seq<int>, place: seq<Place>, next': seq<int>, place': seq<Place>, list: seq<nat>, key: Key)
    requires g.max >= 1 && IsList(g, next, place, list, key) && Untouched(g, next, place, next', place', key)
    ensures IsList(g, next', place', list, key)
  {
    hide KeyOf;
  }

  /** Only operation `i` changes place. */
  ghost predicate OnlyMoves(g: Config, place: seq<Place>, place': seq<Place>, i: nat)
    requires g.max >= 1
  {
    && i < |place| == |place'|
    && forall j: nat :: j < |place| && j != i ==> KeyOf(g, place', j) == KeyOf(g, place, j)
  }

  /** The first operation leaves the list. */
  lemma FirstLeaves(g: Config, next: seq<int>, place: seq<Place>, next': seq<int>, place': seq<Place>, list: seq<nat>, key: Key)
    requires g.max >= 1 && IsList(g, next, place, list, key) && list != [] && |next'| == |next|
    requires OnlyMoves(g, place, place', list[0]) && KeyOf(g, place', list[0]) != key
    requires forall j: nat :: j < |place| && j != list[0] && KeyOf(g, place, j) == key ==> next'[j] == next[j]
    ensures IsList(g, next', place', list[1..], key)
  {
    hide KeyOf;
    assert list == [list[0]] + list[1..];
  }

  /** An operation joins the end of the list. */
  lemma LastJoins(g: Config, next: seq<int>, place: seq<Place>, next': seq<int>, place': seq<Place>, list: seq<nat>, key: Key, i: nat)
    requires g.max >= 1 && IsList(g, next, place, list, key) && |next'| == |next| && !key.place.Returned?
    requires OnlyMoves(g, place, place', i) && KeyOf(g, place, i) != key && KeyOf(g, place', i) == key
    requires next'[i] == -1 && (list != [] ==> next'[list[|list| - 1]] == i)
    requires forall j: nat :: j < |place| && KeyOf(g, place, j) == key && j != list[|list| - 1] ==> next'[j] == next[j]
    ensures IsList(g, next', place', list + [i], key)
  {
    hide KeyOf;
    assert i !in list;
  }

  /** An operation joins the front of a list that is being returned. */
  lemma FirstJoins(g: Config, next: seq<int>, place: seq<Place>, next': seq<int>, place': seq<Place>, list: seq<nat>, key: Key, i: nat)
    requires g.max >= 1 && IsList(g, next, place, list, key) && |next'| == |next| && key.place.Returned?
    requires OnlyMoves(g, place, place', i) && KeyOf(g, place, i) != key && KeyOf(g, place', i) == key
    requires list != [] ==> next'[i] == list[0]
    requires forall j: nat :: j < |place| && KeyOf(g, place, j) == key ==> next'[j] == next[j]
    ensures IsList(g, next', place', [i] + list, key)
  {
    hide KeyOf;
    assert i !in list;
  }

  lemma MembersOf(g: Config, next: seq<int>, place: seq<Place>, list: seq<nat>, key: Key)
    requires g.max >= 1 && IsList(g, next, place, list, key)
    ensures forall k :: 0 <= k < |list| ==> list[k] < |place| && KeyOf(g, place, list[k]) == key
  {
    hide KeyOf;
  }

  lemma NextOfFirst(g: Config, next: seq<int>, place: seq<Place>, list: seq<nat>, key: Key)
    requires g.max >= 1 && IsList(g, next, place, list, key) && list != [] && !key.place.Returned?
    ensures list[0] < |next| && next[list[0]] == Head(list[1..])
  {
    hide KeyOf;
  }

  // ---------------------------------------------------------------- contents of lists

  lemma {:induction false} DataConcat<V>(g: Config, ops: seq<Op<V>>, a: seq<nat>, b: seq<nat>, r: nat)
    requires g.max >= 1 && forall k :: 0 <= k < |a + b| ==> (a + b)[k] < |ops|
    ensures forall k :: 0 <= k < |a| ==> a[k] < |ops|
    ensures forall k :: 0 <= k < |b| ==> b[k] < |ops|
    ensures Data(g, ops, a + b, r) == Data(g, ops, a, r) + Data(g, ops, b, r)
  {
    hide Peer;
    forall k | 0 <= k < |a| ensures a[k] < |ops| { assert (a + b)[k] == a[k]; }
    forall k | 0 <= k < |b| ensures b[k] < |ops| { assert (a + b)[|a| + k] == b[k]; }
    if a == [] {
      assert a + b == b;
    } else {
      assert (a + b)[1..] == a[1..] + b;
      DataConcat(g, ops, a[1..], b, r);
    }
  }

  lemma {:induction false} DataOfOthers<V>(g: Config, ops: seq<Op<V>>, a: seq<nat>, r: nat)
    requires g.max >= 1 && forall k :: 0 <= k < |a| ==> a[k] < |ops| && Peer(g, a[k]) != r
    ensures Data(g, ops, a, r) == []
  {
    hide Peer;
    if a != [] { DataOfOthers(g, ops, a[1..], r); }
  }

  lemma {:induction false} DataSame<V>(g: Config, ops: seq<Op<V>>, ops': seq<Op<V>>, a: seq<nat>, r: nat)
    requires g.max >= 1 && |ops'| == |ops|
    requires forall k :: 0 <= k < |a| ==> a[k] < |ops| && ops'[a[k]] == ops[a[k]]
    ensures Data(g, ops', a, r) == Data(g, ops, a, r)
  {
    hide Peer;
    if a != [] { DataSame(g, ops, ops', a[1..], r); }
  }

  // ---------------------------------------------------------------- a rank takes an operation from its private list

  lemma AppendFacts<V>(g: Config, s: Pool<V>, r: nat, op: Op<V>, s': Pool<V>)
    requires Inv(g, s) && Enabled(g, s, Append(r, op)) && s' == Apply(g, s, Append(r, op))
    ensures s.lists[r].priv != [] && s.ranks[r].freeOp == s.lists[r].priv[0] < Size(g)
    ensures KeyOf(g, s.place, s.lists[r].priv[0]) == Key(Private, r)
    ensures KeyOf(g, s'.place, s.lists[r].priv[0]) == Key(Pending, r)
    ensures forall j: nat :: j < |s.place| && j != s.lists[r].priv[0] ==> KeyOf(g, s'.place, j) == KeyOf(g, s.place, j)
    ensures forall j: nat :: j < |s.place| && j != s.lists[r].priv[0] && KeyOf(g, s.place, j) != Key(Pending, r) ==> s'.next[j] == s.next[j]
    ensures s.lists[r].pending != [] ==> s.ranks[r].nextOps != -1 && s.ranks[r].nextOpsEnd == s.lists[r].pending[|s.lists[r].pending| - 1]
  {
    hide Peer, Size, PcOk, ReturnOk, OrderOk;
    assert ListOk(g, s, Key(Private, r));
    assert ListOk(g, s, Key(Pending, r));
    assert PcOk(g, s, r);
    var i := s.ranks[r].freeOp;
    assert KeyOf(g, s.place, s.lists[r].priv[0]) == Key(Private, r);
    assert s'.place == s.place[i := Pending];
    PendingEnd(g, s, r);
  }

  lemma PendingEnd<V>(g: Config, s: Pool<V>, r: nat)
    requires Shaped(g, s) && r < g.ranks && PcOk(g, s, r)
    ensures s.ranks[r].count == |s.lists[r].pending|
    ensures EndField(s.lists[r].pending, s.ranks[r].nextOpsEnd)
  {
  }

  lemma AppendLists<V>(g: Config, s: Pool<V>, r: nat, op: Op<V>, s': Pool<V>, key: Key)
    requires Inv(g, s) && Enabled(g, s, Append(r, op)) && s' == Apply(g, s, Append(r, op)) && Valid(g, key)
    ensures ListOk(g, s', key)
  {
    hide Peer, Size, PcOk, ReturnOk, OrderOk, KeyOf, IsList;
    AppendFacts(g, s, r, op, s');
    var l := s.lists[r];
    var i := l.priv[0];
    assert ListOk(g, s, Key(Private, r));
    assert ListOk(g, s, Key(Pending, r));
    assert ListOk(g, s, key);
    MembersOf(g, s.next, s.place, l.pending, Key(Pending, r));
    if key == Key(Private, r) {
      FirstLeaves(g, s.next, s.place, s'.next, s'.place, l.priv, key);
      NextOfFirst(g, s.next, s.place, l.priv, key);
    } else if key == Key(Pending, r) {
      LastJoins(g, s.next, s.place, s'.next, s'.place, l.pending, key, i);
    } else {
      ListKept(g, s.next, s.place, s'.next, s'.place, TheList(s, key), key);
    }
  }

  /** A step that concerns neither this rank nor what the progress thread holds of it. */
  lemma OthersKeep<V>(g: Config, s: Pool<V>, s': Pool<V>, r: nat)
    requires Shaped(g, s) && Shaped(g, s') && r < g.ranks && PcOk(g, s, r) && ReturnOk(g, s, r)
    requires s'.ranks[r] == s.ranks[r] && s'.lists[r] == s.lists[r] && s'.freeOpEnd == s.freeOpEnd && s'.phase == s.phase
    requires s.lists[r].returned != [] && IsIx(s, s.freeOpEnd[r]) ==> s'.next[s.freeOpEnd[r]] == s.next[s.freeOpEnd[r]]
    ensures PcOk(g, s', r) && ReturnOk(g, s', r)
  {
    hide Size, Peer;
  }

  lemma QueueKeys<V>(g: Config, s: Pool<V>, r: nat)
    requires Inv(g, s) && r < g.ranks
    ensures forall k :: 0 <= k < |Queue(s, r)| ==> Queue(s, r)[k] < Size(g)
    ensures forall k :: 0 <= k < |Queue(s, r)| ==>
      (s.place[Queue(s, r)[k]].Taken? || s.place[Queue(s, r)[k]].Posted? || s.place[Queue(s, r)[k]].Pending?)
  {
    hide Size, Peer, PcOk, ReturnOk, OrderOk, IsList;
    assert ListOk(g, s, Key(Taken, 0)) && ListOk(g, s, Key(Posted, 0)) && ListOk(g, s, Key(Pending, r));
    MembersOf(g, s.next, s.place, s.draining, Key(Taken, 0));
    MembersOf(g, s.next, s.place, s.posted, Key(Posted, 0));
    MembersOf(g, s.next, s.place, s.lists[r].pending, Key(Pending, r));
  }

  lemma AppendOrder<V>(g: Config, s: Pool<V>, r: nat, op: Op<V>, s': Pool<V>, q: nat)
    requires Inv(g, s) && Enabled(g, s, Append(r, op)) && s' == Apply(g, s, Append(r, op)) && q < g.ranks
    ensures OrderOk(g, s', q)
  {
    hide Size, PcOk, ReturnOk, ListOk;
    AppendFacts(g, s, r, op, s');
    var i := s.lists[r].priv[0];
    assert OrderOk(g, s, q);
    QueueKeys(g, s, q);
    hide Inv, Enabled;
    DataSame(g, s.ops, s'.ops, Queue(s, q), q);
    if q == r {
      assert Queue(s', q) == Queue(s, q) + [i];
      DataConcat(g, s'.ops, Queue(s, q), [i], q);
      assert Data(g, s'.ops, [i], q) == [op];
    } else {
      assert Queue(s', q) == Queue(s, q);
    }
  }

  lemma AppendKeeps<V>(g: Config, s: Pool<V>, r: nat, op: Op<V>)
    requires Inv(g, s) && Enabled(g, s, Append(r, op))
    ensures Inv(g, Apply(g, s, Append(r, op)))
  {
    var s' := Apply(g, s, Append(r, op));
    AppendFacts(g, s, r, op, s');
    forall key | Valid(g, key) ensures ListOk(g, s', key) { AppendLists(g, s, r, op, s', key); }
    forall q | 0 <= q < g.ranks ensures PcOk(g, s', q) && ReturnOk(g, s', q) && OrderOk(g, s', q) {
      AppendOrder(g, s, r, op, s', q);
      AppendRest(g, s, r, op, s', q);
    }
  }

  lemma AppendRest<V>(g: Config, s: Pool<V>, r: nat, op: Op<V>, s': Pool<V>, q: nat)
    requires Inv(g, s) && Enabled(g, s, Append(r, op)) && s' == Apply(g, s, Append(r, op)) && q < g.ranks
    ensures PcOk(g, s', q) && ReturnOk(g, s', q)
  {
    hide Size, Peer, ListOk, OrderOk;
    AppendFacts(g, s, r, op, s');
    if s.lists[q].returned != [] { ReturnedKey(g, s, q); }
    assert PcOk(g, s, q) && ReturnOk(g, s, q);
    assert PcOk(g, s, r) && ReturnOk(g, s, r);
    if q != r { OthersKeep(g, s, s', q); }
  }

  /** The end of a returned list is not on any other list. */
  lemma ReturnedKey<V>(g: Config, s: Pool<V>, q: nat)
    requires Inv(g, s) && q < g.ranks && s.lists[q].returned != []
    ensures IsIx(s, s.freeOpEnd[q]) && KeyOf(g, s.place, s.freeOpEnd[q]) == Key(Returned, q)
  {
    hide Size, Peer, OrderOk, IsList, PcOk;
    assert ListOk(g, s, Key(Returned, q)) && ReturnOk(g, s, q);
    MembersOf(g, s.next, s.place, s.lists[q].returned, Key(Returned, q));
  }

  // ---------------------------------------------------------------- several operations change list at once

  /** Exactly the operations of `moved` change place, all to the list `to`. */
  ghost predicate AllMove(g: Config, place: seq<Place>, place': seq<Place>, moved: seq<nat>, to: Key)
    requires g.max >= 1
  {
    && |place'| == |place|
    && forall j: nat :: j < |place| ==> KeyOf(g, place', j) == if j in moved then to else KeyOf(g, place, j)
  }

  lemma MovedIsAllMove(g: Config, place: seq<Place>, moved: seq<nat>, key: Key, to: Key)
    requires g.max >= 1
    requires forall k :: 0 <= k < |moved| ==> moved[k] < |place| && KeyOf(g, place, moved[k]) == key
    requires if to.place.Posted? || to.place.Taken? then to.rank == 0 else to.rank == key.rank && !key.place.Posted? && !key.place.Taken?
    ensures AllMove(g, place, Moved(place, moved, to.place), moved, to)
  {
    hide Peer;
  }

  /** The front part of a list leaves it. */
  lemma PartLeaves(g: Config, place: seq<Place>, place': seq<Place>, moved: seq<nat>, rest: seq<nat>, key: Key, to: Key)
    requires g.max >= 1 && Holds(g, place, moved + rest, key) && AllMove(g, place, place', moved, to) && key != to
    ensures Holds(g, place', rest, key)
  {
    hide KeyOf;
    var list := moved + rest;
    assert forall k :: 0 <= k < |rest| ==> rest[k] == list[|moved| + k];
    forall j, k | 0 <= j < |moved| && 0 <= k < |rest| ensures moved[j] != rest[k] {
      assert list[j] != list[|moved| + k];
    }
  }

  /** ... and joins another one, behind or in front. */
  lemma PartJoins(g: Config, place: seq<Place>, place': seq<Place>, moved: seq<nat>, rest: seq<nat>, list: seq<nat>, key: Key, to: Key)
    requires g.max >= 1 && Holds(g, place, moved + rest, key) && AllMove(g, place, place', moved, to) && key != to
    requires Holds(g, place, list, to)
    ensures Holds(g, place', list + moved, to) && Holds(g, place', moved + list, to)
  {
    hide KeyOf;
    var all := moved + rest;
    forall k | 0 <= k < |moved| ensures moved[k] < |place| && KeyOf(g, place, moved[k]) == key { assert all[k] == moved[k]; }
    assert Distinct(moved) by {
      forall j, k | 0 <= j < k < |moved| ensures moved[j] != moved[k] { assert all[j] != all[k]; }
    }
  }

  lemma OtherListKept(g: Config, next: seq<int>, place: seq<Place>, next': seq<int>, place': seq<Place>, list: seq<nat>, moved: seq<nat>,
                      from: Key, to: Key, key: Key)
    requires g.max >= 1 && IsList(g, next, place, list, key) && key != from && key != to && |next'| == |next|
    requires forall k :: 0 <= k < |moved| ==> moved[k] < |place| && KeyOf(g, place, moved[k]) == from
    requires AllMove(g, place, place', moved, to)
    requires forall j: nat :: j < |place| && KeyOf(g, place, j) == key ==> next'[j] == next[j]
    ensures IsList(g, next', place', list, key)
  {
    hide KeyOf;
    ListKept(g, next, place, next', place', list, key);
  }

  // ---------------------------------------------------------------- a rank swaps out the shared list

  /** The swap seen on its own: the shared list becomes the private one. */
  ghost function Adopted<V>(g: Config, s: Pool<V>, r: nat): Pool<V>
    requires Shaped(g, s) && r < g.ranks && s.ranks[r].pc.Swapping?
  {
    var k, l := s.ranks[r], s.lists[r];
    s.(freeOps := s.freeOps[r := -1], place := Moved(s.place, l.shared, Private),
       ranks := s.ranks[r := k.(freeOp := k.pc.seen, pc := Ready)],
       lists := s.lists[r := l.(priv := l.shared, shared := [])])
  }

  lemma SwapIsAdoptThenAppend<V>(g: Config, s: Pool<V>, r: nat)
    requires Shaped(g, s) && Enabled(g, s, Swap(r)) && s.freeOps[r] == s.ranks[r].pc.seen && s.lists[r].priv == []
    ensures Shaped(g, Adopted(g, s, r)) && Enabled(g, Adopted(g, s, r), Append(r, s.ranks[r].pc.op))
    ensures Apply(g, s, Swap(r)) == Apply(g, Adopted(g, s, r), Append(r, s.ranks[r].pc.op))
  {
    hide Size, Peer, Moved;
    var s1 := Adopted(g, s, r);
    assert s1.lists[r].priv == s.lists[r].shared;
    var a, b := Apply(g, s, Swap(r)), Apply(g, s1, Append(r, s.ranks[r].pc.op));
    assert a.ranks == b.ranks && a.lists == b.lists && a.place == b.place && a.next == b.next;
  }

  lemma AdoptKeeps<V>(g: Config, s: Pool<V>, r: nat)
    requires Inv(g, s) && r < g.ranks && s.ranks[r].pc.Swapping? && s.freeOps[r] == s.ranks[r].pc.seen
    ensures Inv(g, Adopted(g, s, r))
  {
    hide Size, Peer, IsList, AllMove;
    var s' := Adopted(g, s, r);
    var l := s.lists[r];
    var from, to := Key(Shared, r), Key(Private, r);
    assert PcOk(g, s, r) && ListOk(g, s, from) && ListOk(g, s, to);
    MembersOf(g, s.next, s.place, l.shared, from);
    MovedIsAllMove(g, s.place, l.shared, from, to);
    WholeMoves(g, s.next, s.place, s'.place, l.shared, from, to);
    forall key | Valid(g, key) ensures ListOk(g, s', key) {
      assert ListOk(g, s, key);
      if key != from && key != to {
        OtherListKept(g, s.next, s.place, s'.next, s'.place, TheList(s, key), l.shared, from, to, key);
      }
    }
    forall q | 0 <= q < g.ranks ensures PcOk(g, s', q) && ReturnOk(g, s', q) && OrderOk(g, s', q) {
      assert PcOk(g, s, q) && ReturnOk(g, s, q) && OrderOk(g, s, q);
      assert Queue(s', q) == Queue(s, q);
    }
  }

  /** A whole list takes over an empty one. */
  lemma WholeMoves(g: Config, next: seq<int>, place: seq<Place>, place': seq<Place>, list: seq<nat>, from: Key, to: Key)
    requires g.max >= 1 && IsList(g, next, place, list, from) && IsList(g, next, place, [], to) && from != to
    requires !from.place.Returned? && AllMove(g, place, place', list, to)
    ensures IsList(g, next, place', [], from) && IsList(g, next, place', list, to)
  {
    hide KeyOf;
    assert list + [] == list && [] + list == list;
    PartLeaves(g, place, place', list, [], from, to);
    PartJoins(g, place, place', list, [], [], from, to);
  }

  lemma RereadKeeps<V>(g: Config, s: Pool<V>, r: nat)
    requires Inv(g, s) && Enabled(g, s, Swap(r)) && s.freeOps[r] != s.ranks[r].pc.seen
    ensures Inv(g, Apply(g, s, Swap(r)))
  {
    hide Size, Peer, IsList;
    var s' := Apply(g, s, Swap(r));
    assert PcOk(g, s, r) && ListOk(g, s, Key(Shared, r));
    MembersOf(g, s.next, s.place, s.lists[r].shared, Key(Shared, r));
    forall key | Valid(g, key) ensures ListOk(g, s', key) { assert ListOk(g, s, key); }
    forall q | 0 <= q < g.ranks ensures PcOk(g, s', q) && ReturnOk(g, s', q) && OrderOk(g, s', q) {
      assert PcOk(g, s, q) && ReturnOk(g, s, q) && OrderOk(g, s, q);
    }
  }

  lemma LookKeeps<V>(g: Config, s: Pool<V>, r: nat, op: Op<V>)
    requires Inv(g, s) && Enabled(g, s, Look(r, op))
    ensures Inv(g, Apply(g, s, Look(r, op)))
  {
    hide Size, Peer, IsList;
    var s' := Apply(g, s, Look(r, op));
    assert PcOk(g, s, r) && ListOk(g, s, Key(Shared, r)) && ListOk(g, s, Key(Private, r));
    MembersOf(g, s.next, s.place, s.lists[r].shared, Key(Shared, r));
    forall key | Valid(g, key) ensures ListOk(g, s', key) { assert ListOk(g, s, key); }
    forall q | 0 <= q < g.ranks ensures PcOk(g, s', q) && ReturnOk(g, s', q) && OrderOk(g, s', q) {
      assert PcOk(g, s, q) && ReturnOk(g, s, q) && OrderOk(g, s, q);
    }
  }

  lemma SwapKeeps<V>(g: Config, s: Pool<V>, r: nat)
    requires Inv(g, s) && Enabled(g, s, Swap(r))
    ensures Inv(g, Apply(g, s, Swap(r)))
  {
    hide Size, Peer, ListOk, SwapOut;
    assert PcOk(g, s, r);
    if s.freeOps[r] == s.ranks[r].pc.seen {
      AdoptKeeps(g, s, r);
      SwapIsAdoptThenAppend(g, s, r);
      AppendKeeps(g, Adopted(g, s, r), r, s.ranks[r].pc.op);
    } else {
      RereadKeeps(g, s, r);
    }
  }

  // ---------------------------------------------------------------- a rank posts

  /** The first `n` pending operations of rank `r` have been cut off and appended to the posted list. */
  ghost predicate Posts<V>(g: Config, s: Pool<V>, s': Pool<V>, r: nat, n: nat)
    requires Shaped(g, s) && Shaped(g, s') && r < g.ranks
  {
    var l, k := s.lists[r], s.ranks[r];
    var p := l.pending;
    && 1 <= n <= |p| && p[n - 1] < |s.next| && PostedOk(s)
    && s'.lists == s.lists[r := l.(pending := p[n..])] && s'.posted == s.posted + p[..n] && s'.draining == s.draining
    && s'.place == Moved(s.place, p[..n], Posted)
    && s'.next == (if s.nextOps == -1 then s.next[p[n - 1] := -1] else s.next[p[n - 1] := -1][s.nextOpsEnd := p[0]])
    && s'.ops == s.ops && s'.freeOps == s.freeOps && s'.freeOp == s.freeOp && s'.freeOpEnd == s.freeOpEnd
    && s'.taken == s.taken && s'.phase == s.phase && s'.appended == s.appended && s'.drained == s.drained
    && s'.nextOps == (if s.nextOps == -1 then p[0] else s.nextOps) && s'.nextOpsEnd == p[n - 1]
    && s'.ranks == s.ranks[r := Rank(k.freeOp, Head(p[n..]), s'.ranks[r].nextOpsEnd, |p| - n, Ready)]
    && (n < |p| ==> s'.ranks[r].nextOpsEnd == k.nextOpsEnd)
  }

  lemma PostedEnd<V>(g: Config, s: Pool<V>)
    requires Inv(g, s)
    ensures PostedOk(s) && (s.nextOps == -1 <==> s.posted == [])
    ensures s.posted != [] ==> s.nextOpsEnd == s.posted[|s.posted| - 1] && s.nextOps == s.posted[0]
    ensures s.posted != [] ==> KeyOf(g, s.place, s.nextOpsEnd) == Key(Posted, 0)
  {
    hide Size, Peer, IsList, PcOk, ReturnOk, OrderOk;
    assert ListOk(g, s, Key(Posted, 0));
    MembersOf(g, s.next, s.place, s.posted, Key(Posted, 0));
  }

  lemma CutLinks(next: seq<int>, next': seq<int>, list: seq<nat>, n: nat)
    requires Links(next, list) && Ends(next, list, -1) && Distinct(list) && 1 <= n <= |list| && |next'| == |next|
    requires forall k :: 0 <= k < |list| && k != n - 1 ==> next'[list[k]] == next[list[k]]
    requires next'[list[n - 1]] == -1
    ensures Links(next', list[..n]) && Ends(next', list[..n], -1)
    ensures Links(next', list[n..]) && Ends(next', list[n..], -1)
  {
  }

  lemma JoinLinks(next: seq<int>, a: seq<nat>, b: seq<nat>)
    requires Links(next, a) && Links(next, b) && (a != [] && b != [] ==> next[a[|a| - 1]] == b[0])
    ensures Links(next, a + b)
    ensures b != [] ==> Ends(next, a + b, next[b[|b| - 1]])
  {
  }

  /** What the step does to next, in terms of the lists. */
  lemma PostNext<V>(g: Config, s: Pool<V>, s': Pool<V>, r: nat, n: nat)
    requires Inv(g, s) && Shaped(g, s') && r < g.ranks && Posts(g, s, s', r, n)
    ensures var p := s.lists[r].pending;
      && (forall k :: 0 <= k < |p| ==> p[k] < Size(g) && KeyOf(g, s.place, p[k]) == Key(Pending, r))
      && s'.next[p[n - 1]] == -1
      && (forall j: nat :: j < Size(g) && j != p[n - 1] && (s.posted == [] || j != s.posted[|s.posted| - 1]) ==> s'.next[j] == s.next[j])
      && (s.posted != [] ==> s.posted[|s.posted| - 1] < Size(g) && s'.next[s.posted[|s.posted| - 1]] == p[0] &&
                             KeyOf(g, s.place, s.posted[|s.posted| - 1]) == Key(Posted, 0))
  {
    hide Size, Peer, IsList, PcOk, ReturnOk, OrderOk;
    assert ListOk(g, s, Key(Pending, r));
    MembersOf(g, s.next, s.place, s.lists[r].pending, Key(Pending, r));
    PostedEnd(g, s);
  }

  /** The front of one list is cut off and joins the back of another. */
  lemma FrontMoves(g: Config, next: seq<int>, place: seq<Place>, next': seq<int>, place': seq<Place>, p: seq<nat>, n: nat, list: seq<nat>,
                   from: Key, to: Key)
    requires g.max >= 1 && IsList(g, next, place, p, from) && IsList(g, next, place, list, to) && from != to
    requires !from.place.Returned? && !to.place.Returned? && |next'| == |next| && 1 <= n <= |p| && AllMove(g, place, place', p[..n], to)
    requires next'[p[n - 1]] == -1 && (list != [] ==> next'[list[|list| - 1]] == p[0])
    requires forall k :: 0 <= k < |p| && k != n - 1 ==> next'[p[k]] == next[p[k]]
    requires forall k :: 0 <= k < |list| - 1 ==> next'[list[k]] == next[list[k]]
    ensures IsList(g, next', place', p[n..], from) && IsList(g, next', place', list + p[..n], to)
  {
    hide KeyOf;
    assert |place'| == |place|;
    hide AllMove;
    assert p == p[..n] + p[n..];
    PartLeaves(g, place, place', p[..n], p[n..], from, to);
    PartJoins(g, place, place', p[..n], p[n..], list, from, to);
    hide Holds;
    HoldsDistinct(g, place, p, from);
    CutLinks(next, next', p, n);
    JoinLinks(next', list, p[..n]);
  }

  lemma HoldsDistinct(g: Config, place: seq<Place>, list: seq<nat>, key: Key)
    requires g.max >= 1 && Holds(g, place, list, key)
    ensures Distinct(list)
  {
  }

  lemma PendingAndPosted<V>(g: Config, s: Pool<V>, r: nat)
    requires Inv(g, s) && r < g.ranks
    ensures Shaped(g, s) && IsList(g, s.next, s.place, s.lists[r].pending, Key(Pending, r)) && IsList(g, s.next, s.place, s.posted, Key(Posted, 0))
  {
    hide IsList, PcOk, ReturnOk, OrderOk, PhaseOk;
    assert ListOk(g, s, Key(Pending, r)) && ListOk(g, s, Key(Posted, 0));
  }

  lemma PostMoves<V>(g: Config, s: Pool<V>, s': Pool<V>, r: nat, n: nat)
    requires Inv(g, s) && Shaped(g, s') && r < g.ranks && Posts(g, s, s', r, n)
    ensures IsList(g, s'.next, s'.place, s.lists[r].pending[n..], Key(Pending, r))
    ensures IsList(g, s'.next, s'.place, s.posted + s.lists[r].pending[..n], Key(Posted, 0))
  {
    hide Size, Peer, KeyOf, IsList, AllMove, Moved, Inv, ListOk;
    PendingAndPosted(g, s, r);
    var p := s.lists[r].pending;
    var from, to := Key(Pending, r), Key(Posted, 0);
    PostNext(g, s, s', r, n);
    MovedIsAllMove(g, s.place, p[..n], from, to);
    MembersOf(g, s.next, s.place, s.posted, to);
    DistinctList(g, s.next, s.place, p, from);
    DistinctList(g, s.next, s.place, s.posted, to);
    FrontMoves(g, s.next, s.place, s'.next, s'.place, p, n, s.posted, from, to);
  }

  lemma PostLists<V>(g: Config, s: Pool<V>, s': Pool<V>, r: nat, n: nat, key: Key)
    requires Inv(g, s) && Shaped(g, s') && r < g.ranks && Posts(g, s, s', r, n) && Valid(g, key)
    ensures ListOk(g, s', key)
  {
    hide Size, Peer, PcOk, ReturnOk, OrderOk, KeyOf, IsList, AllMove, Moved;
    var p := s.lists[r].pending;
    var from, to := Key(Pending, r), Key(Posted, 0);
    PostedEnd(g, s);
    if key == from || key == to {
      PostMoves(g, s, s', r, n);
    } else {
      PostNext(g, s, s', r, n);
      assert ListOk(g, s, key);
      MovedIsAllMove(g, s.place, p[..n], from, to);
      OtherListKept(g, s.next, s.place, s'.next, s'.place, TheList(s, key), p[..n], from, to, key);
    }
  }

  lemma DistinctList(g: Config, next: seq<int>, place: seq<Place>, list: seq<nat>, key: Key)
    requires g.max >= 1 && IsList(g, next, place, list, key)
    ensures Distinct(list)
  {
  }

  lemma PeersOf(g: Config, place: seq<Place>, list: seq<nat>, key: Key)
    requires g.max >= 1 && !key.place.Posted? && !key.place.Taken?
    requires forall k :: 0 <= k < |list| ==> list[k] < |place| && KeyOf(g, place, list[k]) == key
    ensures forall k :: 0 <= k < |list| ==> Peer(g, list[k]) == key.rank
  {
    hide Peer;
  }

  /** Posting changes no rank's queue of unconsumed operations. */
  lemma PostOrder<V>(g: Config, s: Pool<V>, s': Pool<V>, r: nat, n: nat, q: nat)
    requires Inv(g, s) && Shaped(g, s') && r < g.ranks && Posts(g, s, s', r, n) && q < g.ranks
    ensures OrderOk(g, s', q)
  {
    hide Size, Peer, PcOk, ReturnOk, IsList, KeyOf;
    var p := s.lists[r].pending;
    assert OrderOk(g, s, q) && ListOk(g, s, Key(Pending, r));
    MembersOf(g, s.next, s.place, p, Key(Pending, r));
    PeersOf(g, s.place, p, Key(Pending, r));
    assert p == p[..n] + p[n..];
    if q == r {
      assert Queue(s', q) == Queue(s, q);
    } else {
      PostForeign(g, s.ops, s.draining + s.posted, p[..n], s.lists[q].pending, q);
      assert Queue(s', q) == s.draining + s.posted + p[..n] + s.lists[q].pending;
    }
  }

  lemma PostForeign<V>(g: Config, ops: seq<Op<V>>, a: seq<nat>, b: seq<nat>, c: seq<nat>, r: nat)
    requires g.max >= 1 && (forall k :: 0 <= k < |a + c| ==> (a + c)[k] < |ops|)
    requires forall k :: 0 <= k < |b| ==> b[k] < |ops| && Peer(g, b[k]) != r
    ensures forall k :: 0 <= k < |a + b + c| ==> (a + b + c)[k] < |ops|
    ensures Data(g, ops, a + b + c, r) == Data(g, ops, a + c, r)
  {
    hide Peer, Data;
    DataConcat(g, ops, a, c, r);
    DataConcat(g, ops, a + b, c, r);
    DataConcat(g, ops, a, b, r);
    DataOfOthers(g, ops, b, r);
  }

  lemma PostKeeps<V>(g: Config, s: Pool<V>, s': Pool<V>, r: nat, n: nat)
    requires Inv(g, s) && Shaped(g, s') && r < g.ranks && Posts(g, s, s', r, n)
    ensures Inv(g, s')
  {
    hide Size, Peer, ListOk, OrderOk, KeyOf, Moved;
    PostNext(g, s, s', r, n);
    forall key | Valid(g, key) ensures ListOk(g, s', key) { PostLists(g, s, s', r, n, key); }
    forall q | 0 <= q < g.ranks ensures PcOk(g, s', q) && ReturnOk(g, s', q) && OrderOk(g, s', q) {
      PostOrder(g, s, s', r, n, q);
      assert PcOk(g, s, q) && ReturnOk(g, s, q);
      if s.lists[q].returned != [] { ReturnedKey(g, s, q); }
    }
  }

  lemma PostAllKeeps<V>(g: Config, s: Pool<V>, r: nat)
    requires Inv(g, s) && Enabled(g, s, PostAll(r))
    ensures Inv(g, Apply(g, s, PostAll(r)))
  {
    hide Size, Peer, KeyOf, Moved, Holds, ReturnOk, OrderOk;
    var s' := Apply(g, s, PostAll(r));
    var p := s.lists[r].pending;
    assert ListOk(g, s, Key(Pending, r)) && PcOk(g, s, r);
    PostedEnd(g, s);
    hide Inv, ListOk, IsList, PcOk;
    assert p[..|p|] == p;
    assert s.next[p[|p| - 1] := -1] == s.next;
    assert Posts(g, s, s', r, |p|);
    hide Posts, Apply;
    PostKeeps(g, s, s', r, |p|);
  }

  /** The cutting loop walks exactly the pending list, up to its last operation. */
  lemma {:induction false} WalkIsList(next: seq<int>, list: seq<nat>, k: nat, fuel: nat)
    requires Links(next, list) && Distinct(list) && k < |list| && fuel >= |list| - k
    ensures Walk(next, list[k], list[|list| - 1], fuel) == list[k..|list| - 1]
    decreases |list| - k
  {
    if k < |list| - 1 {
      WalkIsList(next, list, k + 1, fuel - 1);
    }
  }

  lemma SizeIsEnough(g: Config)
    requires g.ranks >= 1
    ensures g.max <= Size(g)
  {
    MulMono(1, g.ranks, g.max);
  }

  /** The walk of the cutting loop, on the list it walks. */
  lemma VisitedIsPending<V>(g: Config, s: Pool<V>, r: nat)
    requires Inv(g, s) && Enabled(g, s, PostPrefix(r))
    ensures s.lists[r].pending != [] && s.ranks[r].count == |s.lists[r].pending|
    ensures Visited(g, s, r) == s.lists[r].pending[..|s.lists[r].pending| - 1]
    ensures s.ranks[r].nextOps == s.lists[r].pending[0]
    ensures forall k :: 0 <= k < |s.lists[r].pending| - 1 ==>
      s.lists[r].pending[k] < |s.next| && s.next[s.lists[r].pending[k]] == s.lists[r].pending[k + 1]
  {
    hide Size, Peer, KeyOf, ReturnOk, OrderOk, Walk;
    var p := s.lists[r].pending;
    assert ListOk(g, s, Key(Pending, r)) && PcOk(g, s, r);
    SizeIsEnough(g);
    WalkIsList(s.next, p, 0, Size(g));
  }

  lemma PrefixPosts<V>(g: Config, s: Pool<V>, r: nat, n: nat)
    requires Inv(g, s) && Enabled(g, s, PostPrefix(r)) && n == CutOf(g, s, r) && n > 0
    ensures Posts(g, s, Apply(g, s, PostPrefix(r)), r, n)
  {
    hide Size, Peer, KeyOf, Moved, ReturnOk, OrderOk, PcOk, ListOk, CutOf, Visited;
    VisitedIsPending(g, s, r);
    PostedEnd(g, s);
    var p := s.lists[r].pending;
    assert Visited(g, s, r)[n - 1] == p[n - 1];
    assert Head(p[n..]) == p[n];
  }

  /** The operations of the last opCount stay together: posted is what comes before them, unless that is nothing. */
  ghost predicate Splits<V>(s: Pool<V>, s': Pool<V>, r: nat, n: nat)
    requires r < |s.lists| && r < |s'.lists| && r < |s'.ranks|
  {
    var p := s.lists[r].pending;
    && n < |p| && (forall k :: 0 <= k < |p| ==> p[k] < |s.ops|)
    && var last := s.ops[p[|p| - 1]].opCount;
    && (n > 0 ==> s.ops[p[n - 1]].opCount != last) && (forall k :: n <= k < |p| ==> s.ops[p[k]].opCount == last)
    && s'.lists[r].pending == p[n..] && s'.posted == s.posted + p[..n] && (s'.ranks[r].pc.Failed? <==> n == 0)
  }

  /** Where the pending chain is cut, in every run; the append fails exactly if all pending operations share one opCount. */
  lemma CutBetweenOpCounts<V>(g: Config, ops: seq<Op<V>>, trace: seq<Pool<V>>, events: seq<Event<V>>, i: nat, r: nat) returns (n: nat)
    requires Run(g, ops, trace, events) && i < |events| && events[i] == PostPrefix(r)
    ensures Shaped(g, trace[i]) && Shaped(g, trace[i + 1]) && r < g.ranks && Splits(trace[i], trace[i + 1], r, n)
    ensures var s := trace[i];
      var p := s.lists[r].pending;
      trace[i + 1].ranks[r].pc.Failed? <==> forall k :: 0 <= k < |p| ==> s.ops[p[k]].opCount == s.ops[p[|p| - 1]].opCount
  {
    hide Inv, Apply, Splits;
    RunInv(g, ops, trace, events, i);
    n := PrefixSplits(g, trace[i], r);
    SplitFails(trace[i], trace[i + 1], r, n);
  }

  lemma SplitFails<V>(s: Pool<V>, s': Pool<V>, r: nat, n: nat)
    requires r < |s.lists| && r < |s'.lists| && r < |s'.ranks| && Splits(s, s', r, n)
    ensures var p := s.lists[r].pending;
      && (forall k :: 0 <= k < |p| ==> p[k] < |s.ops|) && |p| > 0
      && (s'.ranks[r].pc.Failed? <==> forall k :: 0 <= k < |p| ==> s.ops[p[k]].opCount == s.ops[p[|p| - 1]].opCount)
  {
  }

  lemma PendingInPool<V>(g: Config, s: Pool<V>, r: nat)
    requires Inv(g, s) && Enabled(g, s, PostPrefix(r))
    ensures Shaped(g, s) && IsIx(s, s.ranks[r].nextOpsEnd) && PostedOk(s)
    ensures var p := s.lists[r].pending;
      p != [] && s.ranks[r].nextOpsEnd == p[|p| - 1] && forall k :: 0 <= k < |p| ==> p[k] < |s.ops|
  {
    hide ReturnOk, OrderOk, PhaseOk, Peer, KeyOf, Moved;
    assert ListOk(g, s, Key(Pending, r)) && PcOk(g, s, r);
    MembersOf(g, s.next, s.place, s.lists[r].pending, Key(Pending, r));
  }

  lemma PrefixSplits<V>(g: Config, s: Pool<V>, r: nat) returns (n: nat)
    requires Inv(g, s) && Enabled(g, s, PostPrefix(r))
    ensures Splits(s, Apply(g, s, PostPrefix(r)), r, n)
  {
    hide Inv, ListOk, PcOk, ReturnOk, OrderOk, PhaseOk, Size, Peer, KeyOf, Moved, Visited;
    PendingInPool(g, s, r);
    VisitedIsPending(g, s, r);
    n := CutOf(g, s, r);
    var p, walk := s.lists[r].pending, Visited(g, s, r);
    forall k | n <= k < |p| ensures s.ops[p[k]].opCount == s.ops[p[|p| - 1]].opCount { if k < |p| - 1 { assert walk[k] == p[k]; } }
    assert n == 0 ==> p[n..] == p && s.posted + p[..n] == s.posted;
  }

  lemma PostPrefixKeeps<V>(g: Config, s: Pool<V>, r: nat)
    requires Inv(g, s) && Enabled(g, s, PostPrefix(r))
    ensures Inv(g, Apply(g, s, PostPrefix(r)))
  {
    hide ListOk, PcOk, ReturnOk, OrderOk, PhaseOk, Size, Peer, Posts, CutOf, PostCut;
    var n := CutOf(g, s, r);
    if n == 0 {
      FailKeeps(g, s, Apply(g, s, PostPrefix(r)), r);
    } else {
      PrefixPosts(g, s, r, n);
      PostKeeps(g, s, Apply(g, s, PostPrefix(r)), r, n);
    }
  }

  lemma FailKeeps<V>(g: Config, s: Pool<V>, s': Pool<V>, r: nat)
    requires Inv(g, s) && r < g.ranks && s.ranks[r].pc.Posting? && s' == s.(ranks := s.ranks[r := s.ranks[r].(pc := Failed)])
    ensures Inv(g, s')
  {
    hide Size, Peer, IsList;
    forall key | Valid(g, key) ensures ListOk(g, s', key) { assert ListOk(g, s, key); }
    forall q | 0 <= q < g.ranks ensures PcOk(g, s', q) && ReturnOk(g, s', q) && OrderOk(g, s', q) {
      assert PcOk(g, s, q) && ReturnOk(g, s, q) && OrderOk(g, s, q);
    }
  }

  // ---------------------------------------------------------------- the progress thread

  lemma TakeKeeps<V>(g: Config, s: Pool<V>)
    requires Inv(g, s) && Enabled(g, s, Take)
    ensures Inv(g, Apply(g, s, Take))
  {
    hide Size, Peer, IsList, AllMove, KeyOf;
    var s' := Apply(g, s, Take);
    var from, to := Key(Posted, 0), Key(Taken, 0);
    assert ListOk(g, s, from) && ListOk(g, s, to);
    assert s.draining == [];
    MembersOf(g, s.next, s.place, s.posted, from);
    MovedIsAllMove(g, s.place, s.posted, from, to);
    WholeMoves(g, s.next, s.place, s'.place, s.posted, from, to);
    forall key | Valid(g, key) ensures ListOk(g, s', key) {
      assert ListOk(g, s, key);
      if key != from && key != to {
        OtherListKept(g, s.next, s.place, s'.next, s'.place, TheList(s, key), s.posted, from, to, key);
      }
    }
    forall q | 0 <= q < g.ranks ensures PcOk(g, s', q) && ReturnOk(g, s', q) && OrderOk(g, s', q) {
      assert PcOk(g, s, q) && ReturnOk(g, s, q) && OrderOk(g, s, q);
      assert Queue(s', q) == Queue(s, q);
    }
  }

  /** A step that only moves the progress thread on. */
  lemma PhaseKeeps<V>(g: Config, s: Pool<V>, s': Pool<V>)
    requires Inv(g, s) && s' == s.(phase := s'.phase) && PhaseOk(g, s')
    requires forall q :: 0 <= q < g.ranks ==> ReturnOk(g, s', q)
    ensures Inv(g, s')
  {
    hide Size, Peer, IsList, ReturnOk;
    forall key | Valid(g, key) ensures ListOk(g, s', key) { assert ListOk(g, s, key); }
    forall q | 0 <= q < g.ranks ensures PcOk(g, s', q) && OrderOk(g, s', q) {
      assert PcOk(g, s, q) && OrderOk(g, s, q);
    }
  }

  lemma ResumeKeeps<V>(g: Config, s: Pool<V>)
    requires Inv(g, s) && Enabled(g, s, Resume)
    ensures Inv(g, Apply(g, s, Resume))
  {
    hide Size, Peer, IsList, OrderOk;
    assert ListOk(g, s, Key(Taken, 0));
    var s' := Apply(g, s, Resume);
    forall q | 0 <= q < g.ranks ensures ReturnOk(g, s', q) { assert ReturnOk(g, s, q); }
    PhaseKeeps(g, s, s');
  }

  lemma EndDrainKeeps<V>(g: Config, s: Pool<V>)
    requires Inv(g, s) && Enabled(g, s, EndDrain)
    ensures Inv(g, Apply(g, s, EndDrain))
  {
    hide Size, Peer, ListOk, OrderOk, More;
    var s' := Apply(g, s, EndDrain);
    forall q | 0 <= q < g.ranks ensures ReturnOk(g, s', q) { assert ReturnOk(g, s, q); }
    PhaseKeeps(g, s, s');
  }

  lemma EndReturnKeeps<V>(g: Config, s: Pool<V>)
    requires Inv(g, s) && Enabled(g, s, EndReturn)
    ensures Inv(g, Apply(g, s, EndReturn))
  {
    hide Size, Peer, ListOk, OrderOk;
    var s' := Apply(g, s, EndReturn);
    forall q | 0 <= q < g.ranks ensures ReturnOk(g, s', q) { assert ReturnOk(g, s, q); }
    PhaseKeeps(g, s, s');
  }

  lemma DrainFacts<V>(g: Config, s: Pool<V>, s': Pool<V>, p: nat)
    requires Inv(g, s) && Enabled(g, s, Drain) && s' == Apply(g, s, Drain) && p == Peer(g, s.taken)
    ensures s.draining != [] && s.taken == s.draining[0] < Size(g)
    ensures OnlyMoves(g, s.place, s'.place, s.draining[0])
    ensures KeyOf(g, s.place, s.draining[0]) == Key(Taken, 0) && KeyOf(g, s'.place, s.draining[0]) == Key(Returned, p)
    ensures s'.taken == Head(s.draining[1..])
    ensures s.lists[p].returned != [] ==> s'.next[s.draining[0]] == s.lists[p].returned[0]
    ensures forall j: nat :: j < Size(g) && j != s.draining[0] ==> s'.next[j] == s.next[j]
  {
    hide Size, PcOk, ReturnOk, OrderOk, More, Peer;
    TakenFacts(g, s);
    assert s.freeOp[p] == Head(s.lists[p].returned) by { assert ListOk(g, s, Key(Returned, p)); }
    hide ListOk, IsList, PhaseOk, Inv;
    assert s'.place == s.place[s.taken := Returned];
  }

  /** The operation the progress thread is at is the first of those it has taken. */
  lemma TakenFacts<V>(g: Config, s: Pool<V>)
    requires Inv(g, s) && IsIx(s, s.taken)
    ensures s.draining != [] && s.taken == s.draining[0] < Size(g) == |s.place|
    ensures KeyOf(g, s.place, s.draining[0]) == Key(Taken, 0) && s.next[s.taken] == Head(s.draining[1..])
  {
    hide Size, PcOk, ReturnOk, OrderOk, Peer, PhaseOk;
    assert ListOk(g, s, Key(Taken, 0));
    MembersOf(g, s.next, s.place, s.draining, Key(Taken, 0));
    NextOfFirst(g, s.next, s.place, s.draining, Key(Taken, 0));
  }

  lemma DrainLists<V>(g: Config, s: Pool<V>, s': Pool<V>, key: Key)
    requires Inv(g, s) && Enabled(g, s, Drain) && s' == Apply(g, s, Drain) && Valid(g, key)
    ensures ListOk(g, s', key)
  {
    hide Size, PcOk, ReturnOk, OrderOk, More, Peer, KeyOf, IsList;
    var p := Peer(g, s.taken);
    DrainFacts(g, s, s', p);
    assert ListOk(g, s, key);
    if key == Key(Taken, 0) {
      FirstLeaves(g, s.next, s.place, s'.next, s'.place, s.draining, key);
    } else if key == Key(Returned, p) {
      FirstJoins(g, s.next, s.place, s'.next, s'.place, s.lists[p].returned, key, s.draining[0]);
    } else {
      ListKept(g, s.next, s.place, s'.next, s'.place, TheList(s, key), key);
    }
  }

  lemma DrainOrder<V>(g: Config, s: Pool<V>, s': Pool<V>, q: nat)
    requires Inv(g, s) && Enabled(g, s, Drain) && s' == Apply(g, s, Drain) && q < g.ranks
    ensures OrderOk(g, s', q)
  {
    hide Size, PcOk, ReturnOk, ListOk, More, Peer;
    var p := Peer(g, s.taken);
    DrainFacts(g, s, s', p);
    assert OrderOk(g, s, q);
    assert Queue(s, q) == [s.draining[0]] + Queue(s', q);
    assert Queue(s, q)[1..] == Queue(s', q);
    if q == p {
      assert s'.drained[q] == s.drained[q] + [s.ops[s.taken]];
    }
  }

  lemma DrainKeeps<V>(g: Config, s: Pool<V>)
    requires Inv(g, s) && Enabled(g, s, Drain)
    ensures Inv(g, Apply(g, s, Drain))
  {
    hide Size, Peer, ListOk, OrderOk, More;
    var s' := Apply(g, s, Drain);
    var p := Peer(g, s.taken);
    DrainFacts(g, s, s', p);
    forall key | Valid(g, key) ensures ListOk(g, s', key) { DrainLists(g, s, s', key); }
    forall q | 0 <= q < g.ranks ensures PcOk(g, s', q) && ReturnOk(g, s', q) && OrderOk(g, s', q) {
      DrainOrder(g, s, s', q);
      assert PcOk(g, s, q) && ReturnOk(g, s, q);
      ReturnedHead(g, s, q);
    }
  }

  lemma ReturnedHead<V>(g: Config, s: Pool<V>, q: nat)
    requires Inv(g, s) && q < g.ranks
    ensures s.freeOp[q] == -1 <==> s.lists[q].returned == []
    ensures s.freeOps[q] == Head(s.lists[q].shared)
  {
    hide Size, Peer, PcOk, ReturnOk, OrderOk, IsList;
    assert ListOk(g, s, Key(Returned, q)) && ListOk(g, s, Key(Shared, q));
  }

  // ---------------------------------------------------------------- giving operations back

  lemma ReturnKeeps<V>(g: Config, s: Pool<V>)
    requires Inv(g, s) && Enabled(g, s, Return)
    ensures Inv(g, Apply(g, s, Return))
  {
    hide Size, Peer, OrderOk, IsList, KeyOf;
    var s' := Apply(g, s, Return);
    var p := s.phase.peer;
    ReturnedHead(g, s, p);
    if s.freeOp[p] == -1 {
      hide ListOk;
      forall q | 0 <= q < g.ranks ensures ReturnOk(g, s', q) { assert ReturnOk(g, s, q); }
      PhaseKeeps(g, s, s');
    } else {
      ReturnedKey(g, s, p);
      LinkLists(g, s, s', p, s.freeOps[p]);
      forall q | 0 <= q < g.ranks ensures PcOk(g, s', q) && ReturnOk(g, s', q) && OrderOk(g, s', q) {
        assert PcOk(g, s, q) && ReturnOk(g, s, q) && OrderOk(g, s, q);
        OrderKept(g, s, s', q);
      }
    }
  }

  lemma OrderKept<V>(g: Config, s: Pool<V>, s': Pool<V>, q: nat)
    requires Shaped(g, s) && Shaped(g, s') && q < g.ranks && OrderOk(g, s, q)
    requires s'.ops == s.ops && s'.appended == s.appended && s'.drained == s.drained && Queue(s', q) == Queue(s, q)
    ensures OrderOk(g, s', q)
  {
  }

  /** Relinking the end of a list that is being returned disturbs no list. */
  lemma LinkLists<V>(g: Config, s: Pool<V>, s': Pool<V>, p: nat, to: int)
    requires Inv(g, s) && p < g.ranks && s.lists[p].returned != [] && IsIx(s, s.freeOpEnd[p])
    requires s' == s.(next := s.next[s.freeOpEnd[p] := to], phase := s'.phase)
    ensures forall key :: Valid(g, key) ==> ListOk(g, s', key)
  {
    hide Size, Peer, OrderOk, PcOk, KeyOf, PhaseOk, Moved, IsList;
    ReturnedKey(g, s, p);
    assert ReturnOk(g, s, p);
    forall key | Valid(g, key) ensures ListOk(g, s', key) {
      assert ListOk(g, s, key);
      hide Inv, ReturnOk;
      if key == Key(Returned, p) {
        TailRelinked(g, s.next, s'.next, s.place, s.lists[p].returned, key);
      } else {
        ListKept(g, s.next, s.place, s'.next, s'.place, TheList(s, key), key);
      }
    }
  }

  lemma TailRelinked(g: Config, next: seq<int>, next': seq<int>, place: seq<Place>, list: seq<nat>, key: Key)
    requires g.max >= 1 && IsList(g, next, place, list, key) && key.place.Returned? && list != [] && |next'| == |next|
    requires forall j: nat :: j < |next| && j != list[|list| - 1] ==> next'[j] == next[j]
    ensures IsList(g, next', place, list, key)
  {
    hide KeyOf;
  }

  /** The returned operations go in front of the shared ones. */
  lemma FrontGiven(g: Config, next: seq<int>, place: seq<Place>, place': seq<Place>, returned: seq<nat>, shared: seq<nat>, from: Key, to: Key)
    requires g.max >= 1 && IsList(g, next, place, returned, from) && IsList(g, next, place, shared, to) && from != to
    requires !to.place.Returned? && AllMove(g, place, place', returned, to)
    requires returned != [] && next[returned[|returned| - 1]] == Head(shared)
    ensures IsList(g, next, place', [], from) && IsList(g, next, place', returned + shared, to)
  {
    hide KeyOf;
    assert |place'| == |place|;
    assert returned + [] == returned;
    PartLeaves(g, place, place', returned, [], from, to);
    PartJoins(g, place, place', returned, [], shared, from, to);
    hide AllMove, Holds;
    JoinLinks(next, returned, shared);
    if shared == [] { assert returned + shared == returned; }
  }

  ghost predicate GivesBack<V>(g: Config, s: Pool<V>, p: nat) {
    && Inv(g, s) && p < g.ranks && s.lists[p].returned != []
    && (s.phase.Linked? || s.phase.Recycled?) && s.phase.peer == p
    && IsIx(s, s.freeOpEnd[p]) && s.next[s.freeOpEnd[p]] == Head(s.lists[p].shared)
  }

  lemma GiveBackLists<V>(g: Config, s: Pool<V>, p: nat, s': Pool<V>, key: Key)
    requires GivesBack(g, s, p) && s' == GivenBack(s, p) && Valid(g, key)
    ensures ListOk(g, s', key)
  {
    hide Size, Peer, IsList, AllMove, KeyOf, PcOk, OrderOk, PhaseOk, Moved;
    var l := s.lists[p];
    var from, to := Key(Returned, p), Key(Shared, p);
    assert ListOk(g, s, from) && ListOk(g, s, to) && ListOk(g, s, key) && ReturnOk(g, s, p);
    MembersOf(g, s.next, s.place, l.returned, from);
    MovedIsAllMove(g, s.place, l.returned, from, to);
    hide Inv, ReturnOk, GivesBack;
    if key == from || key == to {
      FrontGiven(g, s.next, s.place, s'.place, l.returned, l.shared, from, to);
    } else {
      OtherListKept(g, s.next, s.place, s'.next, s'.place, TheList(s, key), l.returned, from, to, key);
    }
  }

  lemma GiveBackKeeps<V>(g: Config, s: Pool<V>, p: nat, s': Pool<V>)
    requires GivesBack(g, s, p) && s' == GivenBack(s, p)
    ensures Inv(g, s')
  {
    hide Size, Peer, ListOk, Moved;
    forall key | Valid(g, key) ensures ListOk(g, s', key) { GiveBackLists(g, s, p, s', key); }
    forall q | 0 <= q < g.ranks ensures PcOk(g, s', q) && ReturnOk(g, s', q) && OrderOk(g, s', q) {
      assert PcOk(g, s, q) && ReturnOk(g, s, q) && OrderOk(g, s, q);
      OrderKept(g, s, s', q);
    }
  }

  lemma PublishKeeps<V>(g: Config, s: Pool<V>)
    requires Inv(g, s) && Enabled(g, s, Publish)
    ensures Inv(g, Apply(g, s, Publish))
  {
    hide Size, Peer, ListOk, OrderOk, KeyOf, GivenBack;
    var s' := Apply(g, s, Publish);
    var p := s.phase.peer;
    assert ReturnOk(g, s, p);
    ReturnedHead(g, s, p);
    SharedHead(g, s, p);
    if s.phase.oldFree == -1 || s.freeOps[p] == s.phase.oldFree {
      GiveBackKeeps(g, s, p, s');
    } else {
      forall q | 0 <= q < g.ranks ensures ReturnOk(g, s', q) { assert ReturnOk(g, s, q); }
      PhaseKeeps(g, s, s');
    }
  }

  lemma SharedHead<V>(g: Config, s: Pool<V>, p: nat)
    requires Inv(g, s) && p < g.ranks
    ensures forall k :: 0 <= k < |s.lists[p].returned| ==> s.lists[p].returned[k] < |s.next|
  {
    hide Size, Peer, PcOk, ReturnOk, OrderOk, IsList;
    assert ListOk(g, s, Key(Returned, p));
    MembersOf(g, s.next, s.place, s.lists[p].returned, Key(Returned, p));
  }

  lemma RepairKeeps<V>(g: Config, s: Pool<V>)
    requires Inv(g, s) && Enabled(g, s, Repair)
    ensures Inv(g, Apply(g, s, Repair))
  {
    hide Size, Peer, ListOk, OrderOk, KeyOf, GivenBack;
    var p := s.phase.peer;
    var s1 := s.(next := s.next[s.freeOpEnd[p] := -1]);
    assert ReturnOk(g, s, p);
    LinkLists(g, s, s1, p, -1);
    SharedHead(g, s, p);
    forall q | 0 <= q < g.ranks ensures PcOk(g, s1, q) && ReturnOk(g, s1, q) && OrderOk(g, s1, q) {
      assert PcOk(g, s, q) && ReturnOk(g, s, q) && OrderOk(g, s, q);
      OrderKept(g, s, s1, q);
    }
    GiveBackKeeps(g, s1, p, Apply(g, s, Repair));
  }

  // ---------------------------------------------------------------- whole runs

  lemma StepInv<V>(g: Config, s: Pool<V>, e: Event<V>)
    requires Inv(g, s) && Enabled(g, s, e)
    ensures Inv(g, Apply(g, s, e))
  {
    hide Apply, Enabled, ListOk, PcOk, ReturnOk, OrderOk, PhaseOk, Size, Peer;
    match e
    case Append(r, op) => AppendKeeps(g, s, r, op);
    case Look(r, op) => LookKeeps(g, s, r, op);
    case Swap(r) => SwapKeeps(g, s, r);
    case PostPrefix(r) => PostPrefixKeeps(g, s, r);
    case PostAll(r) => PostAllKeeps(g, s, r);
    case Take => TakeKeeps(g, s);
    case Resume => ResumeKeeps(g, s);
    case Drain => DrainKeeps(g, s);
    case EndDrain => EndDrainKeeps(g, s);
    case Return => ReturnKeeps(g, s);
    case Publish => PublishKeeps(g, s);
    case Repair => RepairKeeps(g, s);
    case EndReturn => EndReturnKeeps(g, s);
  }

  lemma {:induction false} RunInv<V>(g: Config, ops: seq<Op<V>>, trace: seq<Pool<V>>, events: seq<Event<V>>, i: nat)
    requires Run(g, ops, trace, events) && i < |trace|
    ensures Inv(g, trace[i])
  {
    hide Inv, Apply, Enabled, Size, InitialPool;
    if i == 0 {
      InitialInv(g, ops);
    } else {
      RunInv(g, ops, trace, events, i - 1);
      StepInv(g, trace[i - 1], events[i - 1]);
      assert trace[i - 1 + 1] == Apply(g, trace[i - 1], events[i - 1]);
    }
  }

  /** In every run every operation is on exactly one list, once: private, shared, pending, posted, being drained or being returned. */
  lemma OnePlace<V>(g: Config, ops: seq<Op<V>>, trace: seq<Pool<V>>, events: seq<Event<V>>, i: nat, x: nat)
    requires Run(g, ops, trace, events) && i < |trace| && x < Size(g)
    ensures Shaped(g, trace[i])
    ensures var s := trace[i];
      var home := KeyOf(g, s.place, x);
      && Valid(g, home)
      && (forall key :: Valid(g, key) ==> (x in TheList(s, key) <==> key == home))
      && Distinct(TheList(s, home))
  {
    hide Run, IsList, PcOk, ReturnOk, OrderOk, PhaseOk, Peer, Size;
    RunInv(g, ops, trace, events, i);
    var s := trace[i];
    PeerInRange(g, x);
    var home := KeyOf(g, s.place, x);
    forall key | Valid(g, key) ensures x in TheList(s, key) <==> key == home {
      assert ListOk(g, s, key);
      KeyDecides(g, s.next, s.place, TheList(s, key), key, x);
    }
    assert ListOk(g, s, home);
    DistinctList(g, s.next, s.place, TheList(s, home), home);
  }

  lemma KeyDecides(g: Config, next: seq<int>, place: seq<Place>, list: seq<nat>, key: Key, x: nat)
    requires g.max >= 1 && IsList(g, next, place, list, key) && x < |place|
    ensures x in list <==> KeyOf(g, place, x) == key
  {
    hide KeyOf;
  }

  /** In every run the operations of a rank are consumed in the order they were appended, and none is skipped. */
  lemma ConsumedInOrder<V>(g: Config, ops: seq<Op<V>>, trace: seq<Pool<V>>, events: seq<Event<V>>, i: nat, r: nat)
    requires Run(g, ops, trace, events) && i < |trace| && r < g.ranks
    ensures Shaped(g, trace[i]) && trace[i].drained[r] <= trace[i].appended[r]
    ensures trace[i].draining == trace[i].posted == trace[i].lists[r].pending == [] ==> trace[i].drained[r] == trace[i].appended[r]
  {
    hide Run, ListOk, PcOk, ReturnOk, PhaseOk;
    RunInv(g, ops, trace, events, i);
    assert OrderOk(g, trace[i], r);
  }

  /** The internal error of the failed swap is never reached, and no step follows a link out of the pool. */
  lemma StepsAreSafe<V>(g: Config, ops: seq<Op<V>>, trace: seq<Pool<V>>, events: seq<Event<V>>, i: nat, r: nat, op: Op<V>)
    requires Run(g, ops, trace, events) && i < |trace| && r < g.ranks
    ensures Shaped(g, trace[i]) && !trace[i].phase.Broken?
    ensures var s := trace[i];
      match s.ranks[r].pc
      case Ready => Enabled(g, s, Append(r, op)) || Enabled(g, s, Look(r, op)) || s.freeOps[r] == -1
      case Swapping(_, _) => Enabled(g, s, Swap(r))
      case Posting => Enabled(g, s, PostPrefix(r))
      case Failed => true
  {
    hide Run, PhaseOk, OrderOk, KeyOf, IsList;
    RunInv(g, ops, trace, events, i);
    var s := trace[i];
    assert PhaseOk(g, s) && PcOk(g, s, r) && ReturnOk(g, s, r);
    assert ListOk(g, s, Key(Private, r)) && ListOk(g, s, Key(Pending, r));
    MembersOf(g, s.next, s.place, s.lists[r].priv, Key(Private, r));
    MembersOf(g, s.next, s.place, s.lists[r].pending, Key(Pending, r));
    PostedEnd(g, s);
  }

  // ---------------------------------------------------------------- an appender that waits is served

  predicate ProgressEvent<V>(e: Event<V>) {
    e.Take? || e.Resume? || e.Drain? || e.EndDrain? || e.Return? || e.Publish? || e.Repair? || e.EndReturn?
  }

  /** Nothing posted, nothing taken, nothing to give back. */
  ghost predicate Quiet<V>(s: Pool<V>) {
    s.phase.Idle? && s.posted == [] && s.draining == []
  }

  ghost predicate SomeProgress<V>(g: Config, s: Pool<V>)
    requires Shaped(g, s)
  {
    || Enabled(g, s, Take) || Enabled(g, s, Resume) || Enabled(g, s, Drain) || Enabled(g, s, EndDrain)
    || Enabled(g, s, Return) || Enabled(g, s, Publish) || Enabled(g, s, Repair) || Enabled(g, s, EndReturn)
  }

  lemma DrainOrEnd<V>(g: Config, s: Pool<V>)
    requires Shaped(g, s) && s.phase.Draining? && (s.taken == -1 || IsIx(s, s.taken))
    ensures Enabled(g, s, Drain) || Enabled(g, s, EndDrain)
  {
    if s.taken != -1 { PeerInRange(g, s.taken); }
  }

  /** The progress thread is never stuck: it can step exactly when it is not quiet. */
  lemma ProgressUnlessQuiet<V>(g: Config, s: Pool<V>)
    requires Inv(g, s)
    ensures SomeProgress(g, s) <==> !Quiet(s)
  {
    hide OrderOk, PcOk, IsList, More, Size, KeyOf;
    assert ListOk(g, s, Key(Taken, 0)) && ListOk(g, s, Key(Posted, 0));
    MembersOf(g, s.next, s.place, s.draining, Key(Taken, 0));
    match s.phase
    case Idle =>
    case Draining(_, _, _) =>
      DrainOrEnd(g, s);
    case Returning(p) =>
      if p < g.ranks {
        ReturnedHead(g, s, p);
        if s.freeOp[p] != -1 { ReturnedKey(g, s, p); }
      }
    case Linked(p, _) =>
    case Recycled(p) =>
      assert ReturnOk(g, s, p);
      ReturnedKey(g, s, p);
    case Broken =>
  }

  /** Bound on the steps the progress thread can take before it is quiet, if no rank posts. */
  ghost function Effort<V>(g: Config, s: Pool<V>): int {
    (3 * g.ranks + 4) * (|s.draining| + |s.posted|) +
    match s.phase
    case Idle => 1
    case Draining(_, lastPeer, _) => if lastPeer == -1 then 0 else 3 * g.ranks + 3
    case Returning(p) => 3 * (g.ranks - p) + 2
    case Linked(p, _) => 3 * (g.ranks - p) + 1
    case Recycled(p) => 3 * (g.ranks - p)
    case Broken => 0
  }

  lemma EffortDrops(k: nat, n: nat, a: int, b: int)
    requires n >= 1 && a - b < k
    ensures k * (n - 1) + a < k * n + b
  {
    assert k * (n - 1) == k * n - k;
  }

  /** Every step of the progress thread brings it nearer to being quiet, whatever it races with. */
  lemma ProgressDecreases<V>(g: Config, s: Pool<V>, e: Event<V>)
    requires Inv(g, s) && Enabled(g, s, e) && ProgressEvent(e)
    ensures 0 <= Effort(g, Apply(g, s, e)) < Effort(g, s)
  {
    hide OrderOk, ReturnOk, PcOk, IsList, Size, KeyOf, Peer, Moved;
    var s' := Apply(g, s, e);
    assert ListOk(g, s, Key(Taken, 0)) && ListOk(g, s, Key(Posted, 0));
    var n, n' := |s.draining| + |s.posted|, |s'.draining| + |s'.posted|;
    MulNonNeg(3 * g.ranks + 4, n');
    if e.Drain? {
      assert n' == n - 1;
      EffortDrops(3 * g.ranks + 4, n, 3 * g.ranks + 3, 0);
    } else {
      assert n' == n;
      StepInv(g, s, e);
    }
  }

  /** A list that contains `n` consecutive numbers is at least that long. */
  lemma {:induction false} HoldsRange(list: seq<nat>, lo: nat, n: nat)
    requires forall x: nat :: lo <= x < lo + n ==> x in list
    ensures |list| >= n
  {
    if n > 0 {
      assert lo + n - 1 in list;
      var k :| 0 <= k < |list| && list[k] == lo + n - 1;
      var rest := list[..k] + list[k + 1..];
      forall x: nat | lo <= x < lo + n - 1 ensures x in rest {
        assert x in list;
        var j :| 0 <= j < |list| && list[j] == x;
        assert rest[if j < k then j else j - 1] == x;
      }
      HoldsRange(rest, lo, n - 1);
    }
  }

  /** A rank that needs an operation and finds none has one in flight: posted, being drained or being returned. */
  lemma WaitingMeansInFlight<V>(g: Config, s: Pool<V>, r: nat) returns (x: nat)
    requires Inv(g, s) && r < g.ranks && s.ranks[r].pc.Ready? && s.ranks[r].freeOp == -1 && s.freeOps[r] == -1
    ensures x < Size(g) && Peer(g, x) == r && (s.place[x].Posted? || s.place[x].Taken? || s.place[x].Returned?)
  {
    hide OrderOk, ReturnOk, IsList, Size, Peer;
    assert PcOk(g, s, r);
    assert ListOk(g, s, Key(Private, r)) && ListOk(g, s, Key(Shared, r)) && ListOk(g, s, Key(Pending, r));
    if forall k: nat :: k < g.max ==> Own(g, r)[k] in s.lists[r].pending {
      forall y: nat | r * g.max <= y < r * g.max + g.max ensures y in s.lists[r].pending { assert Own(g, r)[y - r * g.max] == y; }
      MulNonNeg(r, g.max);
      HoldsRange(s.lists[r].pending, r * g.max, g.max);
      assert false;
    }
    var k: nat :| k < g.max && Own(g, r)[k] !in s.lists[r].pending;
    x := Own(g, r)[k];
    OwnIsPeer(g, r, k);
    KeyDecides(g, s.next, s.place, s.lists[r].priv, Key(Private, r), x);
    KeyDecides(g, s.next, s.place, s.lists[r].shared, Key(Shared, r), x);
    KeyDecides(g, s.next, s.place, s.lists[r].pending, Key(Pending, r), x);
  }

  /** ... so the progress thread is not quiet: no reachable state has a rank spinning for ever with nobody to serve it. */
  lemma WaitingIsServed<V>(g: Config, ops: seq<Op<V>>, trace: seq<Pool<V>>, events: seq<Event<V>>, i: nat, r: nat)
    requires Run(g, ops, trace, events) && i < |trace| && r < g.ranks
    ensures Shaped(g, trace[i])
    ensures trace[i].ranks[r].pc.Ready? && trace[i].ranks[r].freeOp == -1 && trace[i].freeOps[r] == -1 ==> SomeProgress(g, trace[i])
  {
    hide Run, OrderOk, IsList, Size, Peer, SomeProgress;
    RunInv(g, ops, trace, events, i);
    var s := trace[i];
    if s.ranks[r].pc.Ready? && s.ranks[r].freeOp == -1 && s.freeOps[r] == -1 {
      var x := WaitingMeansInFlight(g, s, r);
      ProgressUnlessQuiet(g, s);
      PeerInRange(g, x);
      var key := KeyOf(g, s.place, x);
      assert ListOk(g, s, key) && ReturnOk(g, s, r);
      KeyDecides(g, s.next, s.place, TheList(s, key), key, x);
    }
  }
}
