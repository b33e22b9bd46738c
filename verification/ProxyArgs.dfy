/**
 The lists of proxy arguments kept by the progress thread (src/proxy.cc): a free pool and an active
 list threaded through `next`, and behind every active element a chain of waiting ones threaded
 through `nextPeer`. Each connection names an append slot that points to the last element of its chain.
 */
module ProxyArgs {
  /**
   An operation handed to ProxyAppend: the append slot of its connection, whether that slot is shared, its opCount,
   what operations of one element must have in common (steps, protocol, types, collective), and its own part.
   */
  datatype Op<V> = Op(slot: nat, shared: bool, opCount: nat, kind: nat, data: V)

  /**
   All of the thread's state. `subs` are the operations an element carries, `ready` is set until it is first advanced. The fields from `home` on
   record, for the specification only, which list every element is on (-1 for the free pool, -2 while
   it is being linked, otherwise its slot), the lists themselves, and what each slot was given and finished.
   */
  datatype State<!V> = State(next: seq<int>, nextPeer: seq<int>, slotOf: seq<nat>, opCount: seq<nat>, kind: seq<nat>, ready: seq<bool>, subs: seq<seq<V>>,
                             pool: int, active: int, slots: seq<int>,
                             home: seq<int>, free: seq<nat>, chain: seq<seq<nat>>, order: seq<nat>, appended: seq<seq<V>>, finished: seq<seq<V>>)

  predicate Shaped<V>(s: State<V>) {
    && |s.next| == |s.nextPeer| == |s.slotOf| == |s.opCount| == |s.kind| == |s.ready| == |s.subs| == |s.home|
    && |s.slots| == |s.chain| == |s.appended| == |s.finished|
  }

  function Head(list: seq<nat>): int { if list == [] then -1 else list[0] }

  function Last(list: seq<nat>): int { if list == [] then -1 else list[|list| - 1] }

  predicate Distinct(list: seq<nat>) { forall j, k :: 0 <= j < k < |list| ==> list[j] != list[k] }

  /** The list holds exactly the elements at home there. */
  predicate Holds(home: seq<int>, list: seq<nat>, c: int) {
    && Distinct(list)
    && (forall k :: 0 <= k < |list| ==> list[k] < |home| && home[list[k]] == c)
    && (forall i: nat :: i < |home| && home[i] == c ==> i in list)
  }

  /** The list is threaded through `link`, from `head` to a null pointer. */
  predicate Linked(link: seq<int>, list: seq<nat>, head: int) {
    && head == Head(list)
    && (forall k :: 0 <= k < |list| ==> list[k] < |link|)
    && (forall k :: 0 <= k < |list| - 1 ==> link[list[k]] == list[k + 1])
    && (list != [] ==> link[list[|list| - 1]] == -1)
  }

  /** What the elements of a chain carry, in order. */
  function Content<V>(subs: seq<seq<V>>, list: seq<nat>): seq<V>
    requires forall k :: 0 <= k < |list| ==> list[k] < |subs|
  {
    if list == [] then [] else subs[list[0]] + Content(subs, list[1..])
  }

  ghost predicate FreeOk<V>(s: State<V>) { Holds(s.home, s.free, -1) && Linked(s.next, s.free, s.pool) }

  /** A chain: its elements belong to its slot, only the first can be active, and the slot points to the last. */
  ghost predicate ChainOk<V>(s: State<V>, c: nat)
    requires Shaped(s) && c < |s.chain|
  {
    var list := s.chain[c];
    && Holds(s.home, list, c)
    && Linked(s.nextPeer, list, Head(list))
    && (forall k :: 0 <= k < |list| ==> s.slotOf[list[k]] == c)
    && (forall k :: 1 <= k < |list| ==> s.next[list[k]] == -1)
    && s.slots[c] == Last(list)
    && s.appended[c] == s.finished[c] + Content(s.subs, list)
  }

  /** The slots in use, in the order of the active list. */
  predicate InOrder(chain: seq<seq<nat>>, order: seq<nat>) {
    && Distinct(order)
    && (forall k :: 0 <= k < |order| ==> order[k] < |chain| && chain[order[k]] != [])
    && (forall c: nat :: c < |chain| && chain[c] != [] ==> c in order)
  }

  /** The elements of the active list: the first of every chain. */
  function Heads(chain: seq<seq<nat>>, order: seq<nat>): (heads: seq<nat>)
    requires forall k :: 0 <= k < |order| ==> order[k] < |chain| && chain[order[k]] != []
    ensures |heads| == |order|
  {
    seq(|order|, k requires 0 <= k < |order| => chain[order[k]][0])
  }

  ghost predicate OrderOk<V>(s: State<V>) {
    InOrder(s.chain, s.order) && Linked(s.next, Heads(s.chain, s.order), s.active)
  }

  ghost predicate Ok<V>(s: State<V>) {
    && Shaped(s) && FreeOk(s) && OrderOk(s)
    && (forall c :: 0 <= c < |s.chain| ==> ChainOk(s, c))
  }

  /** No element is lost between lists. */
  predicate Complete<V>(s: State<V>) { forall i :: 0 <= i < |s.home| ==> -1 <= s.home[i] < |s.chain| }

  // ---------------------------------------------------------------- lists across a step

  lemma LinkedKept(link: seq<int>, link': seq<int>, list: seq<nat>, head: int)
    requires Linked(link, list, head) && |link| <= |link'|
    requires forall k :: 0 <= k < |list| ==> link'[list[k]] == link[list[k]]
    ensures Linked(link', list, head)
  {
  }

  lemma LinkedMiddle(link: seq<int>, list: seq<nat>, head: int, k: nat)
    requires Linked(link, list, head) && k < |list| - 1
    ensures link[list[k]] != -1
  {
    assert link[list[k]] == list[k + 1];
  }

  lemma LinkedTail(link: seq<int>, list: seq<nat>, head: int, x: int)
    requires Linked(link, list, head) && Distinct(list) && list != []
    ensures Linked(link[list[0] := x], list[1..], link[list[0]])
  {
  }

  /** An element linked behind the last one. */
  lemma LinkedBehind(link: seq<int>, list: seq<nat>, head: int, e: nat)
    requires Linked(link, list, head) && Distinct(list) && list != [] && e < |link| && e !in list && link[e] == -1
    ensures Linked(link[list[|list| - 1] := e], list + [e], head)
  {
  }

  lemma LinkedFront(link: seq<int>, list: seq<nat>, head: int, e: nat)
    requires Linked(link, list, head) && e < |link| && e !in list
    ensures Linked(link[e := head], [e] + list, e)
  {
  }

  lemma HoldsKept(home: seq<int>, home': seq<int>, list: seq<nat>, c: int)
    requires Holds(home, list, c) && |home'| == |home|
    requires forall i: nat :: i < |home| ==> (home'[i] == c <==> home[i] == c)
    ensures Holds(home', list, c)
  {
  }

  lemma HoldsTail(home: seq<int>, list: seq<nat>, c: int, to: int)
    requires Holds(home, list, c) && list != [] && to != c
    ensures Holds(home[list[0] := to], list[1..], c)
  {
    assert list == [list[0]] + list[1..];
  }

  lemma HoldsMore(home: seq<int>, list: seq<nat>, c: int, e: nat)
    requires Holds(home, list, c) && e < |home| && home[e] != c
    ensures Holds(home[e := c], list + [e], c) && Holds(home[e := c], [e] + list, c)
  {
  }

  /** A step that concerns none of a chain's elements. */
  lemma ChainKept<V>(s: State<V>, s': State<V>, c: nat)
    requires Shaped(s) && Shaped(s') && c < |s.chain| == |s'.chain| && ChainOk(s, c)
    requires s'.chain[c] == s.chain[c] && s'.slots[c] == s.slots[c] && s'.appended[c] == s.appended[c] && s'.finished[c] == s.finished[c]
    requires |s'.home| == |s.home| && forall i: nat :: i < |s.home| ==> (s'.home[i] == c <==> s.home[i] == c)
    requires forall k :: 0 <= k < |s.chain[c]| ==>
      var e := s.chain[c][k];
      e < |s.home| && s'.nextPeer[e] == s.nextPeer[e] && s'.slotOf[e] == s.slotOf[e] && s'.subs[e] == s.subs[e] && (k >= 1 ==> s'.next[e] == -1)
    ensures ChainOk(s', c)
  {
    hide Holds, Linked, Distinct;
    var list := s.chain[c];
    HoldsKept(s.home, s'.home, list, c);
    LinkedKept(s.nextPeer, s'.nextPeer, list, Head(list));
    ContentSame(s.subs, s'.subs, list);
  }

  // ---------------------------------------------------------------- allocation

  /** A freshly chained block of elements put in an empty pool. */
  function Grown<V>(s: State<V>, size: nat): State<V>
    requires Shaped(s)
  {
    var n := |s.next|;
    s.(next := s.next + seq(size, i => if i + 1 < size then n + i + 1 else -1), nextPeer := s.nextPeer + seq(size, _ => -1),
       slotOf := s.slotOf + seq(size, _ => 0), opCount := s.opCount + seq(size, _ => 0), kind := s.kind + seq(size, _ => 0),
       ready := s.ready + seq(size, _ => false), subs := s.subs + seq(size, _ => []), pool := if size == 0 then -1 else n,
       home := s.home + seq(size, _ => -1), free := seq(size, i requires 0 <= i < size => n + i))
  }

  lemma {:induction false} ContentSame<V>(subs: seq<seq<V>>, subs': seq<seq<V>>, list: seq<nat>)
    requires forall k :: 0 <= k < |list| ==> list[k] < |subs| && list[k] < |subs'| && subs'[list[k]] == subs[list[k]]
    ensures Content(subs', list) == Content(subs, list)
  {
    if list != [] { ContentSame(subs, subs', list[1..]); }
  }

  lemma {:induction false} ContentConcat<V>(subs: seq<seq<V>>, a: seq<nat>, b: seq<nat>)
    requires forall k :: 0 <= k < |a| ==> a[k] < |subs|
    requires forall k :: 0 <= k < |b| ==> b[k] < |subs|
    ensures forall k :: 0 <= k < |a + b| ==> (a + b)[k] < |subs|
    ensures Content(subs, a + b) == Content(subs, a) + Content(subs, b)
  {
    if a == [] {
      assert a + b == b;
    } else {
      assert (a + b)[1..] == a[1..] + b;
      ContentConcat(subs, a[1..], b);
    }
  }

  lemma GrownFree<V>(s: State<V>, size: nat)
    requires Ok(s) && s.pool == -1
    ensures FreeOk(Grown(s, size))
  {
    var s' := Grown(s, size);
    assert s.free == [];
    forall i: nat | i < |s'.home| && s'.home[i] == -1 ensures i in s'.free {
      if i < |s.home| { assert false; }
      assert s'.free[i - |s.next|] == i;
    }
  }

  lemma GrownChain<V>(s: State<V>, size: nat, c: nat)
    requires Ok(s) && c < |s.chain|
    ensures ChainOk(Grown(s, size), c)
  {
    var s' := Grown(s, size);
    assert ChainOk(s, c);
    ContentSame(s.subs, s'.subs, s.chain[c]);
    forall i: nat | i < |s'.home| && s'.home[i] == c ensures i in s.chain[c] { assert s.home[i] == c; }
  }

  lemma GrownOk<V>(s: State<V>, size: nat)
    requires Ok(s) && s.pool == -1
    ensures Ok(Grown(s, size)) && (Complete(s) ==> Complete(Grown(s, size)))
  {
    hide ChainOk, FreeOk;
    var s' := Grown(s, size);
    GrownFree(s, size);
    forall c | 0 <= c < |s'.chain| ensures ChainOk(s', c) { GrownChain(s, size, c); }
  }

  /** The first free element taken out. */
  function Taken<V>(s: State<V>): State<V>
    requires Shaped(s) && 0 <= s.pool < |s.next|
  {
    var e := s.pool;
    s.(pool := s.next[e], next := s.next[e := -1], nextPeer := s.nextPeer[e := -1], home := s.home[e := -2],
       free := if s.free == [] then [] else s.free[1..])
  }

  /** An element is out of every list, and ready to be linked. */
  ghost predicate Loose<V>(s: State<V>, e: nat)
    requires Shaped(s)
  {
    && e < |s.home| && s.home[e] == -2 && s.next[e] == -1 && s.nextPeer[e] == -1
    && forall i :: 0 <= i < |s.home| && i != e ==> -1 <= s.home[i] < |s.chain|
  }

  lemma TakenOk<V>(s: State<V>)
    requires Ok(s) && Complete(s) && s.pool != -1
    ensures Shaped(s) && 0 <= s.pool < |s.next| && s.home[s.pool] == -1
    ensures Ok(Taken(s)) && Loose(Taken(s), s.pool)
  {
    hide ChainOk, Heads, Distinct, FreeOk, OrderOk;
    TakenFree(s);
    var s' := Taken(s);
    forall c | 0 <= c < |s'.chain| ensures ChainOk(s', c) {
      ChainMembers(s, c);
      ChainKept(s, s', c);
    }
    ActiveKept(s, s');
  }

  lemma TakenFree<V>(s: State<V>)
    requires Shaped(s) && FreeOk(s) && s.pool != -1
    ensures 0 <= s.pool < |s.next| && s.home[s.pool] == -1 && FreeOk(Taken(s))
  {
    assert s.pool == s.free[0] && s.home[s.free[0]] == -1;
    hide Linked, Holds;
    HoldsDistinct(s.home, s.free, -1);
    LinkedTail(s.next, s.free, s.pool, -1);
    HoldsTail(s.home, s.free, -1, -2);
  }

  lemma HoldsDistinct(home: seq<int>, list: seq<nat>, c: int)
    requires Holds(home, list, c)
    ensures Distinct(list)
  {
  }

  lemma ChainMembers<V>(s: State<V>, c: nat)
    requires Shaped(s) && c < |s.chain| && ChainOk(s, c)
    ensures forall k :: 0 <= k < |s.chain[c]| ==> s.chain[c][k] < |s.home| && s.home[s.chain[c][k]] == c
    ensures forall k :: 1 <= k < |s.chain[c]| ==> s.next[s.chain[c][k]] == -1
    ensures Distinct(s.chain[c])
  {
  }

  /** The active list is untouched when the same chains lead it and their first elements keep their links. */
  lemma ActiveKept<V>(s: State<V>, s': State<V>)
    requires Ok(s) && Shaped(s') && s'.order == s.order && s'.chain == s.chain && s'.active == s.active
    requires |s'.next| == |s.next| && |s'.home| == |s.home|
    requires forall i: nat :: i < |s.home| && s.home[i] >= 0 ==> s'.next[i] == s.next[i]
    ensures OrderOk(s')
  {
    hide ChainOk, Linked;
    var heads := Heads(s.chain, s.order);
    forall k | 0 <= k < |heads| ensures heads[k] < |s.home| && s.home[heads[k]] >= 0 { ChainMembers(s, s.order[k]); }
    LinkedKept(s.next, s'.next, heads, s.active);
  }

  // ---------------------------------------------------------------- appending

  /** ncclProxyOpToArgs for the first operation of an element. */
  function Filled<V>(s: State<V>, e: nat, op: Op<V>): State<V>
    requires Shaped(s) && e < |s.home|
  {
    s.(slotOf := s.slotOf[e := op.slot], opCount := s.opCount[e := op.opCount], kind := s.kind[e := op.kind],
       ready := s.ready[e := true], subs := s.subs[e := [op.data]])
  }

  lemma FilledOk<V>(s: State<V>, e: nat, op: Op<V>)
    requires Ok(s) && Loose(s, e)
    ensures Ok(Filled(s, e, op)) && Loose(Filled(s, e, op), e)
  {
    hide ChainOk, Heads, Distinct, FreeOk, OrderOk;
    var s' := Filled(s, e, op);
    assert FreeOk(s') by { FreeSame(s, s'); }
    forall c | 0 <= c < |s'.chain| ensures ChainOk(s', c) {
      ChainMembers(s, c);
      ChainKept(s, s', c);
    }
    ActiveKept(s, s');
  }

  lemma FreeSame<V>(s: State<V>, s': State<V>)
    requires FreeOk(s) && s'.home == s.home && s'.free == s.free && s'.next == s.next && s'.pool == s.pool
    ensures FreeOk(s')
  {
  }

  /** The operation joins the element its slot points to. */
  function Grouped<V>(s: State<V>, op: Op<V>): State<V>
    requires Shaped(s) && op.slot < |s.slots| && 0 <= s.slots[op.slot] < |s.home|
  {
    var e, c := s.slots[op.slot], op.slot;
    s.(subs := s.subs[e := s.subs[e] + [op.data]], appended := s.appended[c := s.appended[c] + [op.data]])
  }

  lemma GroupedOwn<V>(s: State<V>, op: Op<V>)
    requires Shaped(s) && op.slot < |s.slots| && ChainOk(s, op.slot) && s.slots[op.slot] != -1
    ensures 0 <= s.slots[op.slot] < |s.home| && ChainOk(Grouped(s, op), op.slot)
  {
    SlotsPoint(s, op.slot);
    hide Holds, Linked;
    var list := s.chain[op.slot];
    ChainMembers(s, op.slot);
    ContentGrows(s.subs, list, op.data);
  }

  lemma ContentGrows<V>(subs: seq<seq<V>>, list: seq<nat>, data: V)
    requires list != [] && Distinct(list) && forall k :: 0 <= k < |list| ==> list[k] < |subs|
    ensures var e := list[|list| - 1]; Content(subs[e := subs[e] + [data]], list) == Content(subs, list) + [data]
  {
    hide Content;
    var front, e := list[..|list| - 1], list[|list| - 1];
    var subs' := subs[e := subs[e] + [data]];
    assert list == front + [e];
    ContentConcat(subs, front, [e]);
    ContentConcat(subs', front, [e]);
    ContentSame(subs, subs', front);
    ContentOne(subs, e);
    ContentOne(subs', e);
  }

  lemma ContentOne<V>(subs: seq<seq<V>>, e: nat)
    requires e < |subs|
    ensures Content(subs, [e]) == subs[e]
  {
  }

  lemma GroupedOk<V>(s: State<V>, op: Op<V>)
    requires Ok(s) && op.slot < |s.slots| && s.slots[op.slot] != -1
    ensures 0 <= s.slots[op.slot] < |s.home| && Ok(Grouped(s, op))
  {
    hide Heads, FreeOk, OrderOk, ChainOk, Distinct;
    GroupedOwn(s, op);
    SlotsPoint(s, op.slot);
    var s' := Grouped(s, op);
    FreeSame(s, s');
    forall d | 0 <= d < |s'.chain| && d != op.slot ensures ChainOk(s', d) {
      ChainMembers(s, d);
      ChainKept(s, s', d);
    }
    ActiveKept(s, s');
  }

  /** A loose element goes behind the last one of its slot's chain. */
  function Chained<V>(s: State<V>, e: nat, op: Op<V>): State<V>
    requires Shaped(s) && e < |s.home| && op.slot < |s.slots| && 0 <= s.slots[op.slot] < |s.home|
  {
    var c := op.slot;
    s.(nextPeer := s.nextPeer[s.slots[c] := e], slots := s.slots[c := e], home := s.home[e := c],
       chain := s.chain[c := s.chain[c] + [e]], appended := s.appended[c := s.appended[c] + [op.data]])
  }

  /** The element has the contents of the operation. */
  ghost predicate Carries<V>(s: State<V>, e: nat, op: Op<V>)
    requires Shaped(s)
  {
    && e < |s.home| && s.slotOf[e] == op.slot && s.opCount[e] == op.opCount && s.kind[e] == op.kind
    && s.ready[e] && s.subs[e] == [op.data]
  }

  lemma ChainedOwn<V>(s: State<V>, e: nat, op: Op<V>)
    requires Ok(s) && Loose(s, e) && Carries(s, e, op) && op.slot < |s.slots| && s.slots[op.slot] != -1
    ensures 0 <= s.slots[op.slot] < |s.home| && ChainOk(Chained(s, e, op), op.slot) && s.chain[op.slot] != []
  {
    hide Heads, FreeOk, OrderOk;
    var c := op.slot;
    assert ChainOk(s, c);
    var list := s.chain[c];
    assert list[|list| - 1] < |s.home|;
    var s' := Chained(s, e, op);
    assert e !in list;
    HoldsMore(s.home, list, c, e);
    LinkedBehind(s.nextPeer, list, Head(list), e);
    hide Linked, Holds, ChainOk, Ok;
    ContentConcat(s.subs, list, [e]);
    ContentOne(s.subs, e);
    hide Content;
    ChainFrom(s', c, list + [e]);
  }

  lemma ChainedOk<V>(s: State<V>, e: nat, op: Op<V>)
    requires Ok(s) && Loose(s, e) && Carries(s, e, op) && op.slot < |s.slots| && s.slots[op.slot] != -1
    ensures 0 <= s.slots[op.slot] < |s.home| && Ok(Chained(s, e, op)) && Complete(Chained(s, e, op))
  {
    hide FreeOk, ChainOk, Linked, Distinct;
    ChainedOwn(s, e, op);
    var c := op.slot;
    var s' := Chained(s, e, op);
    FreeHome(s, s');
    SlotsPoint(s, c);
    forall d | 0 <= d < |s'.chain| && d != c ensures ChainOk(s', d) {
      ChainMembers(s, d);
      ChainKept(s, s', d);
    }
    assert Heads(s'.chain, s'.order) == Heads(s.chain, s.order);
  }

  lemma FreeHome<V>(s: State<V>, s': State<V>)
    requires FreeOk(s) && s'.free == s.free && s'.next == s.next && s'.pool == s.pool && |s'.home| == |s.home|
    requires forall i: nat :: i < |s.home| ==> (s'.home[i] == -1 <==> s.home[i] == -1)
    ensures FreeOk(s')
  {
    hide Linked;
    HoldsKept(s.home, s'.home, s.free, -1);
  }

  /** The element a slot points to is at home there. */
  lemma SlotsPoint<V>(s: State<V>, c: nat)
    requires Shaped(s) && c < |s.chain| && ChainOk(s, c) && s.slots[c] != -1
    ensures 0 <= s.slots[c] < |s.home| && s.home[s.slots[c]] == c
  {
  }

  /** The last element of the active list. */
  function LastActive<V>(s: State<V>): int
    requires forall k :: 0 <= k < |s.order| ==> s.order[k] < |s.chain| && s.chain[s.order[k]] != []
  {
    Last(Heads(s.chain, s.order))
  }

  /** A loose element starts a chain of its own, at the end of the active list. */
  function Started<V>(s: State<V>, e: nat, op: Op<V>, last: int): State<V>
    requires Shaped(s) && e < |s.home| && op.slot < |s.slots| && (last == -1 || 0 <= last < |s.next|)
  {
    var c := op.slot;
    s.(next := if last == -1 then s.next else s.next[last := e], active := if last == -1 then e else s.active,
       slots := s.slots[c := e], home := s.home[e := c], chain := s.chain[c := [e]], order := s.order + [c],
       appended := s.appended[c := s.appended[c] + [op.data]])
  }

  lemma HeadsAt<V>(s: State<V>, k: nat)
    requires Ok(s) && k < |s.order|
    ensures s.order[k] < |s.chain| && s.chain[s.order[k]] != [] && s.chain[s.order[k]][0] < |s.home|
    ensures s.home[s.chain[s.order[k]][0]] == s.order[k] && Heads(s.chain, s.order)[k] == s.chain[s.order[k]][0]
  {
    ChainMembers(s, s.order[k]);
  }

  lemma HeadsDistinct<V>(s: State<V>)
    requires Ok(s)
    ensures Distinct(Heads(s.chain, s.order))
    ensures forall k :: 0 <= k < |s.order| ==> Heads(s.chain, s.order)[k] < |s.home| && s.home[Heads(s.chain, s.order)[k]] == s.order[k]
  {
    hide ChainOk, FreeOk, Linked;
    forall k | 0 <= k < |s.order| ensures Heads(s.chain, s.order)[k] < |s.home| && s.home[Heads(s.chain, s.order)[k]] == s.order[k] {
      HeadsAt(s, k);
    }
  }

  lemma OrderGrows(chain: seq<seq<nat>>, order: seq<nat>, c: nat, e: nat)
    requires InOrder(chain, order) && c < |chain| && chain[c] == []
    ensures InOrder(chain[c := [e]], order + [c]) && Heads(chain[c := [e]], order + [c]) == Heads(chain, order) + [e]
  {
    assert c !in order;
  }

  lemma StartedOrder<V>(s: State<V>, e: nat, op: Op<V>, last: int)
    requires Ok(s) && Loose(s, e) && op.slot < |s.slots| && s.slots[op.slot] == -1 && last == LastActive(s)
    ensures last == -1 || (0 <= last < |s.home| && s.home[last] >= 0)
    ensures OrderOk(Started(s, e, op, last)) && s.chain[op.slot] == []
  {
    hide FreeOk, Holds;
    assert ChainOk(s, op.slot);
    HeadsDistinct(s);
    OrderGrows(s.chain, s.order, op.slot, e);
    var heads := Heads(s.chain, s.order);
    hide ChainOk, Heads, InOrder;
    if heads == [] {
      assert heads + [e] == [e];
    } else {
      LinkedBehind(s.next, heads, s.active, e);
    }
  }

  lemma StartedOk<V>(s: State<V>, e: nat, op: Op<V>, last: int)
    requires Ok(s) && Loose(s, e) && Carries(s, e, op) && op.slot < |s.slots| && s.slots[op.slot] == -1 && last == LastActive(s)
    ensures (last == -1 || 0 <= last < |s.next|) && Ok(Started(s, e, op, last)) && Complete(Started(s, e, op, last))
  {
    StartedOrder(s, e, op, last);
    var c := op.slot;
    var s' := Started(s, e, op, last);
    LastIsHead(s, last);
    StartedChain(s, e, op, last);
    hide FreeOk, OrderOk, ChainOk, Linked, Heads, Distinct;
    FreeUnlinked(s, s', last);
    forall d | 0 <= d < |s'.chain| && d != c ensures ChainOk(s', d) {
      ChainMembers(s, d);
      ChainKept(s, s', d);
    }
  }

  /** The last active element is no waiting one: writing its link disturbs no chain. */
  lemma LastIsHead<V>(s: State<V>, last: int)
    requires Ok(s) && last == LastActive(s)
    ensures last != -1 ==> 0 <= last < |s.home| && s.home[last] >= 0
    ensures last != -1 ==> forall d, k :: 0 <= d < |s.chain| && 1 <= k < |s.chain[d]| ==> s.chain[d][k] != last
  {
    hide FreeOk, Linked, ChainOk;
    HeadsDistinct(s);
    forall d, k | 0 <= d < |s.chain| && 1 <= k < |s.chain[d]| && last != -1 ensures s.chain[d][k] != last {
      ChainMembers(s, d);
      HeadsAt(s, |s.order| - 1);
    }
  }

  lemma StartedChain<V>(s: State<V>, e: nat, op: Op<V>, last: int)
    requires Ok(s) && Loose(s, e) && Carries(s, e, op) && op.slot < |s.slots| && s.slots[op.slot] == -1 && last == LastActive(s)
    requires last == -1 || 0 <= last < |s.next|
    ensures ChainOk(Started(s, e, op, last), op.slot)
  {
    hide FreeOk, OrderOk, LastActive;
    var c := op.slot;
    EmptySlot(s, c);
    HoldsMore(s.home, [], c, e);
    assert [] + [e] == [e];
    hide Ok, ChainOk, Holds;
    ContentOne(s.subs, e);
    var s' := Started(s, e, op, last);
    assert ChainOk(s', c) by {
      assert s'.chain[c] == [e] && s'.slots[c] == e && s'.slotOf[e] == c;
      assert Linked(s'.nextPeer, [e], e);
      OneElement(s', c, e);
    }
  }

  lemma OneElement<V>(s: State<V>, c: nat, e: nat)
    requires Shaped(s) && c < |s.chain| && s.chain[c] == [e] && Holds(s.home, [e], c) && Linked(s.nextPeer, [e], e)
    requires e < |s.home| && s.slotOf[e] == c && s.slots[c] == e && s.appended[c] == s.finished[c] + Content(s.subs, [e])
    ensures ChainOk(s, c)
  {
  }

  lemma EmptySlot<V>(s: State<V>, c: nat)
    requires Ok(s) && c < |s.chain| && s.slots[c] == -1
    ensures Shaped(s) && s.chain[c] == [] && Holds(s.home, [], c) && s.appended[c] == s.finished[c]
  {
    assert ChainOk(s, c);
    hide Linked;
    assert Content(s.subs, []) == [];
  }

  lemma FreeUnlinked<V>(s: State<V>, s': State<V>, last: int)
    requires Shaped(s) && FreeOk(s) && s'.free == s.free && s'.pool == s.pool && |s'.home| == |s.home|
    requires forall i: nat :: i < |s.home| ==> (s'.home[i] == -1 <==> s.home[i] == -1)
    requires last == -1 || (0 <= last < |s.home| && s.home[last] >= 0)
    requires |s'.next| == |s.next| && forall i: nat :: i < |s.next| && i != last ==> s'.next[i] == s.next[i]
    ensures FreeOk(s')
  {
    HoldsKept(s.home, s'.home, s.free, -1);
    LinkedKept(s.next, s'.next, s.free, s.pool);
  }

  // ---------------------------------------------------------------- removing

  /** The active list's links once `e`, behind `prev`, is replaced by the element that waits behind it, or just skipped. */
  function Unlinked(next: seq<int>, e: nat, prev: int, waiting: int): (next': seq<int>)
    requires e < |next| && (prev == -1 || 0 <= prev < |next|) && (waiting == -1 || 0 <= waiting < |next|)
    ensures |next'| == |next|
  {
    if waiting != -1 then (if prev == -1 then next else next[prev := waiting])[waiting := next[e]]
    else if prev == -1 then next else next[prev := next[e]]
  }

  /** The pointers removeOp follows lead to elements. */
  predicate Fits<V>(s: State<V>, k: nat, e: nat, prev: int) {
    && Shaped(s) && k < |s.order| && e < |s.next| && s.slotOf[e] < |s.slots|
    && (prev == -1 || 0 <= prev < |s.next|) && (s.nextPeer[e] == -1 || 0 <= s.nextPeer[e] < |s.next|)
  }

  /** removeOp on the `k`-th active element. */
  function Removed<V>(s: State<V>, k: nat, e: nat, prev: int): State<V>
    requires Fits(s, k, e, prev)
  {
    var c, waiting := s.slotOf[e], s.nextPeer[e];
    s.(active := if prev != -1 then s.active else if waiting != -1 then waiting else s.next[e],
       slots := if waiting != -1 then s.slots else s.slots[c := -1],
       next := Unlinked(s.next, e, prev, waiting)[e := s.pool], pool := e,
       home := s.home[e := -1], free := [e] + s.free, chain := s.chain[c := if s.chain[c] == [] then [] else s.chain[c][1..]],
       order := if waiting != -1 then s.order else s.order[..k] + s.order[k + 1..],
       finished := s.finished[c := s.finished[c] + s.subs[e]])
  }

  /** The k-th active element and the one before it. */
  ghost predicate AtActive<V>(s: State<V>, k: nat, e: nat, prev: int) {
    InOrder(s.chain, s.order) && k < |s.order| && e == Heads(s.chain, s.order)[k] && prev == if k == 0 then -1 else Heads(s.chain, s.order)[k - 1]
  }

  lemma AtActiveFacts<V>(s: State<V>, k: nat, e: nat, prev: int)
    requires Ok(s) && AtActive(s, k, e, prev)
    ensures e < |s.home| && s.slotOf[e] == s.order[k] < |s.slots| && s.chain[s.order[k]] != [] && s.chain[s.order[k]][0] == e
    ensures s.home[e] == s.order[k] && ChainOk(s, s.order[k])
    ensures s.nextPeer[e] == (if |s.chain[s.order[k]]| > 1 then s.chain[s.order[k]][1] else -1)
    ensures s.nextPeer[e] != -1 ==> 0 <= s.nextPeer[e] < |s.home| && s.home[s.nextPeer[e]] == s.order[k] && s.nextPeer[e] != e
    ensures prev != -1 ==> 0 <= prev < |s.home| && k > 0 && s.home[prev] == s.order[k - 1] && s.chain[s.order[k - 1]][0] == prev
    ensures prev != -1 ==> prev != e && prev != s.nextPeer[e] && s.order[k - 1] != s.order[k]
    ensures Fits(s, k, e, prev)
  {
    hide FreeOk;
    HeadsAt(s, k);
    assert ChainOk(s, s.order[k]);
    if k > 0 { HeadsAt(s, k - 1); }
  }

  lemma RemovedFree<V>(s: State<V>, k: nat, e: nat, prev: int)
    requires Ok(s) && AtActive(s, k, e, prev)
    ensures Fits(s, k, e, prev) && FreeOk(Removed(s, k, e, prev))
  {
    AtActiveFacts(s, k, e, prev);
    hide ChainOk, OrderOk, Heads;
    var next := Unlinked(s.next, e, prev, s.nextPeer[e]);
    assert e !in s.free;
    LinkedKept(s.next, next, s.free, s.pool);
    LinkedFront(next, s.free, s.pool, e);
    HoldsMore(s.home, s.free, -1, e);
  }

  /** What is left of a chain without its first element. */
  lemma ChainTail<V>(s: State<V>, c: nat)
    requires Shaped(s) && c < |s.chain| && ChainOk(s, c) && s.chain[c] != []
    ensures var list := s.chain[c];
      && list[0] < |s.home| && Holds(s.home[list[0] := -1], list[1..], c)
      && Linked(s.nextPeer, list[1..], Head(list[1..]))
      && (forall k :: 0 <= k < |list[1..]| ==> list[1..][k] < |s.subs| && s.slotOf[list[1..][k]] == c)
      && s.appended[c] == s.finished[c] + s.subs[list[0]] + Content(s.subs, list[1..])
      && s.slots[c] == Last(list)
  {
    var list := s.chain[c];
    HoldsTail(s.home, list, c, -1);
    LinkedTail(s.nextPeer, list, Head(list), s.nextPeer[list[0]]);
    assert s.nextPeer[list[0] := s.nextPeer[list[0]]] == s.nextPeer;
    hide Linked, Holds;
  }

  lemma RemovedOwn<V>(s: State<V>, k: nat, e: nat, prev: int)
    requires Ok(s) && AtActive(s, k, e, prev) && Fits(s, k, e, prev)
    ensures ChainOk(Removed(s, k, e, prev), s.order[k])
  {
    AtActiveFacts(s, k, e, prev);
    hide FreeOk, OrderOk, Heads, Ok, AtActive;
    var c := s.order[k];
    var list := s.chain[c];
    ChainTail(s, c);
    ChainMembers(s, c);
    WaitingLinks(s, list, e, prev);
    hide Linked, Holds, Content, Distinct, Unlinked, ChainOk;
    var s' := Removed(s, k, e, prev);
    assert s'.appended[c] == s'.finished[c] + Content(s'.subs, list[1..]);
    assert s'.slots[c] == Last(list[1..]);
    ChainFrom(s', c, list[1..]);
  }

  lemma ChainFrom<V>(s: State<V>, c: nat, list: seq<nat>)
    requires Shaped(s) && c < |s.chain| && s.chain[c] == list && Holds(s.home, list, c) && Linked(s.nextPeer, list, Head(list))
    requires forall k :: 0 <= k < |list| ==> list[k] < |s.subs| && s.slotOf[list[k]] == c
    requires forall k :: 1 <= k < |list| ==> s.next[list[k]] == -1
    requires s.slots[c] == Last(list) && s.appended[c] == s.finished[c] + Content(s.subs, list)
    ensures ChainOk(s, c)
  {
    hide Holds, Linked, Content;
  }

  lemma WaitingLinks<V>(s: State<V>, list: seq<nat>, e: nat, prev: int)
    requires Shaped(s) && Distinct(list) && list != [] && e == list[0] && (forall k :: 0 <= k < |list| ==> list[k] < |s.next|)
    requires forall k :: 1 <= k < |list| ==> s.next[list[k]] == -1
    requires prev == -1 || (0 <= prev < |s.next| && prev !in list)
    requires s.nextPeer[e] == if |list| > 1 then list[1] else -1
    ensures forall j :: 1 <= j < |list[1..]| ==> Unlinked(s.next, e, prev, s.nextPeer[e])[e := s.pool][list[1..][j]] == -1
  {
    forall j | 1 <= j < |list[1..]| ensures Unlinked(s.next, e, prev, s.nextPeer[e])[e := s.pool][list[1..][j]] == -1 {
      assert list[1..][j] == list[j + 1] && list[j + 1] != list[1] && list[j + 1] != list[0];
    }
  }

  lemma RemovedOther<V>(s: State<V>, k: nat, e: nat, prev: int, d: nat)
    requires Ok(s) && AtActive(s, k, e, prev) && Fits(s, k, e, prev) && d < |s.chain| && d != s.order[k]
    ensures ChainOk(Removed(s, k, e, prev), d)
  {
    AtActiveFacts(s, k, e, prev);
    assert ChainOk(s, d);
    ChainMembers(s, d);
    hide FreeOk, OrderOk, Heads, ChainOk, Ok, AtActive, Unlinked;
    var s' := Removed(s, k, e, prev);
    var list := s.chain[d];
    forall j | 1 <= j < |list| ensures s'.next[list[j]] == -1 {
      if prev != -1 && s.order[k - 1] == d { assert list[j] != list[0]; }
      UnlinkedElsewhere(s.next, e, prev, s.nextPeer[e], list[j]);
    }
    hide Distinct;
    ChainKept(s, s', d);
  }

  lemma UnlinkedElsewhere(next: seq<int>, e: nat, prev: int, waiting: int, x: nat)
    requires e < |next| && (prev == -1 || 0 <= prev < |next|) && (waiting == -1 || 0 <= waiting < |next|)
    requires x < |next| && x != prev && x != waiting
    ensures Unlinked(next, e, prev, waiting)[x] == next[x]
  {
  }

  /** Replacing one element of a linked list. */
  lemma LinkedReplace(next: seq<int>, list: seq<nat>, head: int, k: nat, p: nat, pool: int)
    requires Linked(next, list, head) && Distinct(list) && k < |list| && p < |next| && p !in list
    ensures var prev: int := if k == 0 then -1 else list[k - 1];
      Linked(Unlinked(next, list[k], prev, p)[list[k] := pool], list[k := p], if k == 0 then p else head)
  {
  }

  /** Dropping one element of a linked list. */
  lemma LinkedDrop(next: seq<int>, list: seq<nat>, head: int, k: nat, pool: int)
    requires Linked(next, list, head) && Distinct(list) && k < |list|
    ensures var prev: int := if k == 0 then -1 else list[k - 1];
      Linked(Unlinked(next, list[k], prev, -1)[list[k] := pool], list[..k] + list[k + 1..], if k == 0 then next[list[0]] else head)
  {
    var rest := list[..k] + list[k + 1..];
    forall j | 0 <= j < |rest| ensures rest[j] == list[if j < k then j else j + 1] {
    }
  }

  lemma OrderStays(chain: seq<seq<nat>>, order: seq<nat>, k: nat)
    requires InOrder(chain, order) && k < |order| && |chain[order[k]]| > 1
    ensures InOrder(chain[order[k] := chain[order[k]][1..]], order)
    ensures Heads(chain[order[k] := chain[order[k]][1..]], order) == Heads(chain, order)[k := chain[order[k]][1]]
  {
  }

  lemma OrderShrinks(chain: seq<seq<nat>>, order: seq<nat>, k: nat)
    requires InOrder(chain, order) && k < |order|
    ensures var order' := order[..k] + order[k + 1..];
      InOrder(chain[order[k] := []], order') && Heads(chain[order[k] := []], order') == Heads(chain, order)[..k] + Heads(chain, order)[k + 1..]
  {
    var order' := order[..k] + order[k + 1..];
    forall j | 0 <= j < |order'| ensures order'[j] == order[if j < k then j else j + 1] {
    }
    var chain' := chain[order[k] := []];
    forall c: nat | c < |chain'| && chain'[c] != [] ensures c in order' {
      assert c in order;
      var j :| 0 <= j < |order| && order[j] == c;
      assert order'[if j < k then j else j - 1] == c;
    }
  }

  lemma RemovedOrder<V>(s: State<V>, k: nat, e: nat, prev: int)
    requires Ok(s) && AtActive(s, k, e, prev) && Fits(s, k, e, prev)
    ensures OrderOk(Removed(s, k, e, prev))
  {
    AtActiveFacts(s, k, e, prev);
    HeadsDistinct(s);
    var c := s.order[k];
    var heads := Heads(s.chain, s.order);
    hide FreeOk, ChainOk, Unlinked;
    if s.nextPeer[e] != -1 {
      OrderStays(s.chain, s.order, k);
      assert s.nextPeer[e] !in heads;
      hide InOrder, Heads;
      LinkedReplace(s.next, heads, s.active, k, s.nextPeer[e], s.pool);
    } else {
      OrderShrinks(s.chain, s.order, k);
      assert s.chain[c][1..] == [];
      hide InOrder, Heads;
      LinkedDrop(s.next, heads, s.active, k, s.pool);
    }
  }

  lemma RemovedOk<V>(s: State<V>, k: nat, e: nat, prev: int)
    requires Ok(s) && Complete(s) && AtActive(s, k, e, prev)
    ensures Fits(s, k, e, prev) && Ok(Removed(s, k, e, prev)) && Complete(Removed(s, k, e, prev))
  {
    RemovedFree(s, k, e, prev);
    RemovedOrder(s, k, e, prev);
    hide FreeOk, OrderOk, ChainOk, Heads;
    AtActiveFacts(s, k, e, prev);
    forall d | 0 <= d < |s.chain| ensures ChainOk(Removed(s, k, e, prev), d) {
      if d == s.order[k] { RemovedOwn(s, k, e, prev); } else { RemovedOther(s, k, e, prev, d); }
    }
  }

  // ---------------------------------------------------------------- the thread's own lists

  /** The thread's fields. `model` is the same state with the record of lists and histories beside it. */
  /** No elements yet. */
  function NoArgs<V>(nslots: nat): State<V> {
    State([], [], [], [], [], [], [], -1, -1, seq(nslots, _ => -1), [], [], seq(nslots, _ => []), [],
          seq(nslots, _ => []), seq(nslots, _ => []))
  }

  lemma NoArgsOk<V>(nslots: nat)
    ensures Ok<V>(NoArgs(nslots)) && Complete<V>(NoArgs(nslots))
  {
    var s: State<V> := NoArgs(nslots);
    assert Heads(s.chain, s.order) == [];
    forall c | 0 <= c < nslots ensures ChainOk(s, c) { assert Content(s.subs, s.chain[c]) == []; }
  }

  class Lists<V> {
    var next: seq<int>
    var nextPeer: seq<int>
    var slotOf: seq<nat>
    var opCount: seq<nat>
    var kind: seq<nat>
    var ready: seq<bool>
    var subs: seq<seq<V>>
    var pool: int
    var active: int
    var slots: seq<int>
    ghost var model: State<V>

    ghost predicate Tied()
      reads this
    {
      && model.next == next && model.nextPeer == nextPeer && model.slotOf == slotOf && model.opCount == opCount
      && model.kind == kind && model.ready == ready && model.subs == subs && model.pool == pool && model.active == active && model.slots == slots
    }

    /** Every element is on exactly one list, and every list is what the invariant says. */
    ghost predicate Valid()
      reads this
    {
      Tied() && Ok(model) && Complete(model)
    }

    constructor (nslots: nat)
      ensures Valid() && |slots| == nslots
      ensures model.appended == model.finished == seq(nslots, _ => [])
    {
      next, nextPeer, slotOf, opCount, kind, ready, subs := [], [], [], [], [], [], [];
      pool, active := -1, -1;
      slots := seq(nslots, _ => -1);
      model := NoArgs(nslots);
      new;
      NoArgsOk<V>(nslots);
      hide Ok, Complete;
    }

    /** allocateArgs: take an element from the pool, which is refilled with a new block of elements when it is empty. */
    method AllocateArgs(size: nat) returns (e: nat)
      requires Valid() && size >= 1
      modifies this
      ensures Tied() && Ok(model) && Shaped(model) && Loose(model, e)
      ensures Untouched(old(model), model)
    {
      hide Ok, Complete, Loose;
      ShapedByOk(model);
      if pool == -1 {
        Refill(size);
      }
      TakenOk(model);
      e := pool;
      pool := next[e];
      next := next[e := -1];
      nextPeer := nextPeer[e := -1];
      model := Taken(model);
    }

    /** The block of new elements that refills an empty pool. */
    method Refill(size: nat)
      requires Valid() && pool == -1 && size >= 1
      modifies this
      ensures Valid() && pool != -1 && Untouched(old(model), model)
    {
      hide Ok, Complete;
      ShapedByOk(model);
      GrownOk(model, size);
      var n := |next|;
      var block: seq<int> := [];
      for i := 0 to size
        invariant block == seq(i, j => if j + 1 < size then n + j + 1 else -1)
      {
        block := block + [if i + 1 < size then n + i + 1 else -1];
      }
      next := next + block;
      nextPeer := nextPeer + seq(size, _ => -1);
      slotOf, opCount := slotOf + seq(size, _ => 0), opCount + seq(size, _ => 0);
      kind, ready, subs := kind + seq(size, _ => 0), ready + seq(size, _ => false), subs + seq(size, _ => []);
      pool := n;
      model := Grown(model, size);
    }

    /** A new element that carries the operation and is on no list yet. */
    method NewArgs(op: Op<V>, size: nat) returns (e: nat)
      requires Valid() && size >= 1
      modifies this
      ensures Tied() && Ok(model) && Shaped(model) && Loose(model, e) && Carries(model, e, op)
      ensures Untouched(old(model), model)
    {
      hide Ok, Complete;
      e := AllocateArgs(size);
      FilledOk(model, e, op);
      slotOf, opCount, kind, ready := slotOf[e := op.slot], opCount[e := op.opCount], kind[e := op.kind], ready[e := true];
      subs := subs[e := [op.data]];
      model := Filled(model, e, op);
    }

    /** The loop that walks to the end of the active list. */
    method FindLast() returns (last: int)
      requires Tied() && Ok(model)
      ensures InOrder(model.chain, model.order) && last == LastActive(model) && (last == -1 <==> active == -1)
    {
      hide FreeOk, ChainOk;
      ghost var heads := Heads(model.chain, model.order);
      assert Linked(next, heads, active);
      hide InOrder, Heads, Ok;
      last := active;
      if last == -1 { return; }
      ghost var k := 0;
      while next[last] != -1
        invariant 0 <= k < |heads| && last == heads[k] && 0 <= last < |next|
        decreases |heads| - k
      {
        last := next[last];
        k := k + 1;
      }
      if k < |heads| - 1 { LinkedMiddle(next, heads, active, k); }
    }

    /** ProxyAppend: join the last element of the slot's chain, wait behind it, or become active. */
    method ProxyAppend(op: Op<V>, size: nat, maxSubs: nat) returns (ok: bool)
      requires Valid() && op.slot < |slots| && size >= 1
      modifies this
      ensures Valid() && |slots| == old(|slots|) && model.finished == old(model.finished)
      ensures ok <==> !Refused(old(model), op, maxSubs)
      ensures if ok then Appended(old(model), model, op) else model == old(model)
    {
      hide Ok, Complete, Loose, Carries;
      ShapedByOk(model);
      var args := slots[op.slot];
      if args == -1 {
        Start(op, size);
      } else {
        SlotInRange(model, op.slot);
        if op.shared && opCount[args] == op.opCount {
          // Too many, of another kind, or to an element that is running: internal error.
          if |subs[args]| >= maxSubs || kind[args] != op.kind || !ready[args] { return false; }
          GroupedOk(model, op);
          GroupedComplete(model, op);
          subs := subs[args := subs[args] + [op.data]];
          model := Grouped(model, op);
        } else {
          Wait(op, size);
        }
      }
      return true;
    }

    /** A new element waits behind the last one of its slot. */
    method Wait(op: Op<V>, size: nat)
      requires Valid() && op.slot < |slots| && slots[op.slot] != -1 && size >= 1
      modifies this
      ensures Valid() && |slots| == old(|slots|) && model.finished == old(model.finished)
      ensures Added(old(model), model, op)
    {
      hide Ok, Complete, Loose, Carries;
      ShapedByOk(model);
      var prevArgs := slots[op.slot];
      var e := NewArgs(op, size);
      ChainedOk(model, e, op);
      LooseInRange(model, e);
      nextPeer := nextPeer[prevArgs := e];
      slots := slots[op.slot := e];
      ChainedAdded(old(model), model, e, op);
      model := Chained(model, e, op);
    }

    /** Nothing is running for the slot: the new element goes to the end of the active list. */
    method Start(op: Op<V>, size: nat)
      requires Valid() && op.slot < |slots| && slots[op.slot] == -1 && size >= 1
      modifies this
      ensures Valid() && |slots| == old(|slots|) && model.finished == old(model.finished)
      ensures Added(old(model), model, op)
    {
      hide Ok, Complete, Loose, Carries, Added, Kept, Untouched, LastActive, InOrder, Shaped;
      ShapedByOk(model);
      var e := NewArgs(op, size);
      UntouchedFacts(old(model), model);
      var last := FindLast();
      LooseInRange(model, e);
      OrderIsInOrder(model);
      StartedOk(model, e, op, last);
      if active == -1 { active := e; } else { next := next[last := e]; }
      slots := slots[op.slot := e];
      StartedAdded(old(model), model, e, op, last);
      model := Started(model, e, op, last);
    }

    /** removeOp: the element goes back to the pool and the one waiting behind it, if any, takes its place. */
    method RemoveOp(e: nat, prev: int, ghost k: nat) returns (op: int, prev': int)
      requires Valid() && AtActive(model, k, e, prev)
      modifies this
      ensures Valid() && |slots| == old(|slots|) && model.appended == old(model.appended)
      ensures Fits(old(model), k, e, prev) && model == Removed(old(model), k, e, prev)
      ensures op == old(next)[e] && prev' == if old(nextPeer)[e] != -1 then old(nextPeer)[e] else prev
    {
      hide Ok, Complete, AtActive;
      RemovedOk(model, k, e, prev);
      var n, waiting := next[e], nextPeer[e];
      op, prev' := n, prev;
      if waiting != -1 {
        if prev != -1 { next := next[prev := waiting]; } else { active := waiting; }
        next := next[waiting := n];
        prev' := waiting;
      } else {
        slots := slots[slotOf[e] := -1];
        if prev != -1 { next := next[prev := n]; } else { active := n; }
      }
      next := next[e := pool];
      pool := e;
      model := Removed(model, k, e, prev);
    }

    /**
     progressOps: advance every active element once; those that finish are removed, and the ones that take
     their place wait for the next pass. Which elements finish when advanced is up to the network: those of `done`.
     */
    method ProgressOps(done: set<nat>)
      requires Valid()
      modifies this
      ensures Valid() && |slots| == old(|slots|) && model.appended == old(model.appended)
      ensures Passed(old(model), model, done, |old(model).order|)
      ensures Advanced(old(model), model, |old(model).order|)
    {
      hide Ok, Complete, Removed, AtActive, Visiting, Visited, Passed, Advanced;
      var prevOp: int, op := -1, active;
      ghost var k, j, start := 0, 0, model;
      FirstVisit(model, done);
      while op != -1
        invariant Tied() && Visiting(start, model, done, j, k, op, prevOp)
        decreases VisitsLeft(model, k)
      {
        Advance(start, model, done, j, k, op, prevOp);
        ready := ready[op := false];
        model := model.(ready := ready);
        j := j + 1;
        if op in done {
          RemoveVisited(start, model, done, j, k, op, prevOp);
          ghost var waits := model.nextPeer[op] != -1;
          op, prevOp := RemoveOp(op, prevOp, k);
          k := if waits then k + 1 else k;
        } else {
          PassVisited(start, model, done, j, k, op, prevOp);
          prevOp := op;
          op := next[op];
          k := k + 1;
        }
      }
      LastVisit(start, model, done, j, k, prevOp);
    }
  }

  /** A slot whose turn has come has lost its first element if that one finishes, and nothing else; other slots are as they were. */
  predicate Served<V(==)>(s0: State<V>, s: State<V>, done: set<nat>, c: nat, turn: bool)
    requires c < |s0.chain| && c < |s.chain| && c < |s0.finished| && c < |s.finished|
  {
    if turn && s0.chain[c] != [] && s0.chain[c][0] in done then
      && s.chain[c] == s0.chain[c][1..] && s0.chain[c][0] < |s0.subs|
      && s.finished[c] == s0.finished[c] + s0.subs[s0.chain[c][0]]
    else
      s.chain[c] == s0.chain[c] && s.finished[c] == s0.finished[c]
  }

  /** Of the first `j` slots of the active list, exactly those whose first element is in `done` have lost it; all others keep theirs. */
  ghost predicate Passed<V>(s0: State<V>, s: State<V>, done: set<nat>, j: nat) {
    && |s.chain| == |s0.chain| == |s.finished| == |s0.finished| && s.subs == s0.subs && s.slotOf == s0.slotOf
    && j <= |s0.order| && forall c :: 0 <= c < |s0.chain| ==> Served(s0, s, done, c, c in s0.order[..j])
  }

  /** The walk of progressOps is at `op`: the elements active at first up to `j` are advanced, and those from `k` on are still to come. */
  ghost predicate Visiting<V>(s0: State<V>, s: State<V>, done: set<nat>, j: nat, k: nat, op: int, prev: int) {
    && Ok(s0) && Ok(s) && Complete(s) && Cursor(s, k, op, prev) && Advanced(s0, s, j) && SameRest(s0, j, s, k)
    && s.appended == s0.appended && |s.slots| == |s0.slots| && Passed(s0, s, done, j)
  }

  /** ... and has just advanced it. */
  ghost predicate Visited<V>(s0: State<V>, s: State<V>, done: set<nat>, j: nat, k: nat, op: nat, prev: int) {
    && Ok(s0) && Ok(s) && Complete(s) && AtActive(s, k, op, prev) && Advanced(s0, s, j) && SameRest(s0, j, s, k + 1)
    && s.appended == s0.appended && |s.slots| == |s0.slots| && j >= 1 && Passed(s0, s, done, j - 1) && TurnOf(s0, j - 1, op)
  }

  /** The j-th active element. */
  predicate TurnOf<V>(s: State<V>, j: nat, e: nat) {
    InOrder(s.chain, s.order) && j < |s.order| && s.chain[s.order[j]][0] == e
  }

  function VisitsLeft<V>(s: State<V>, k: nat): int { |s.order| - k }

  lemma FirstVisit<V>(s: State<V>, done: set<nat>)
    requires Ok(s) && Complete(s)
    ensures Visiting(s, s, done, 0, 0, s.active, -1)
  {
    ActiveStarts(s);
  }

  lemma LastVisit<V>(s0: State<V>, s: State<V>, done: set<nat>, j: nat, k: nat, prev: int)
    requires Visiting(s0, s, done, j, k, -1, prev)
    ensures Ok(s) && Complete(s) && s.appended == s0.appended && |s.slots| == |s0.slots| && Passed(s0, s, done, |s0.order|)
    ensures Advanced(s0, s, |s0.order|)
  {
    hide Ok, Complete, Advanced, Passed;
  }

  lemma Advance<V>(s0: State<V>, s: State<V>, done: set<nat>, j: nat, k: nat, op: int, prev: int)
    requires Visiting(s0, s, done, j, k, op, prev) && op != -1
    ensures 0 <= op < |s.ready| && VisitsLeft(s, k) > 0 && Visited(s0, s.(ready := s.ready[op := false]), done, j + 1, k, op, prev)
    ensures var s' := s.(ready := s.ready[op := false]); Ok(s') && Complete(s') && AtActive(s', k, op, prev)
  {
    CursorIsActive(s, k, op, prev);
    hide Ok, Complete, Advanced, SameRest;
    RunningOk(s0, s, j, k, op, prev);
    PassedReady(s0, s, s.(ready := s.ready[op := false]), done, j);
    hide Passed;
  }

  lemma PassedReady<V>(s0: State<V>, s: State<V>, s': State<V>, done: set<nat>, j: nat)
    requires Passed(s0, s, done, j) && s' == s.(ready := s'.ready)
    ensures Passed(s0, s', done, j)
  {
    forall c | 0 <= c < |s0.chain| ensures Served(s0, s', done, c, c in s0.order[..j]) {
      assert Served(s0, s, done, c, c in s0.order[..j]);
    }
  }

  /** Whose turn it is, one slot further. */
  lemma TurnsNext<V>(s0: State<V>, j: nat, c: nat)
    requires InOrder(s0.chain, s0.order) && j < |s0.order|
    ensures c in s0.order[..j + 1] <==> c in s0.order[..j] || c == s0.order[j]
    ensures s0.order[j] !in s0.order[..j]
  {
    assert s0.order[..j + 1] == s0.order[..j] + [s0.order[j]];
  }

  lemma PassedOver<V>(s0: State<V>, s: State<V>, done: set<nat>, j: nat, e: nat)
    requires Passed(s0, s, done, j) && TurnOf(s0, j, e) && e !in done
    ensures Passed(s0, s, done, j + 1)
  {
    hide InOrder;
    var turns := s0.order[..j + 1];
    forall c | 0 <= c < |s0.chain| ensures Served(s0, s, done, c, c in turns) {
      TurnsNext(s0, j, c);
      assert Served(s0, s, done, c, c in s0.order[..j]);
    }
  }

  lemma PassVisited<V>(s0: State<V>, s: State<V>, done: set<nat>, j: nat, k: nat, op: nat, prev: int)
    requires Visited(s0, s, done, j, k, op, prev) && op !in done
    ensures op < |s.next| && Visiting(s0, s, done, j, k + 1, s.next[op], op) && 0 <= VisitsLeft(s, k + 1) < VisitsLeft(s, k)
  {
    hide Ok, Complete, Advanced, SameRest, Passed, TurnOf;
    CursorMoves(s, k, op, prev);
    PassedOver(s0, s, done, j - 1, op);
  }

  /** A removed element was the first of its slot, whose turn it is. */
  lemma PassedOut<V>(s0: State<V>, s: State<V>, done: set<nat>, j: nat, k: nat, e: nat, prev: int)
    requires Ok(s0) && Ok(s) && AtActive(s, k, e, prev) && Fits(s, k, e, prev) && Passed(s0, s, done, j) && TurnOf(s0, j, e) && e in done
    ensures Passed(s0, Removed(s, k, e, prev), done, j + 1)
  {
    var s' := Removed(s, k, e, prev);
    AtActiveFacts(s, k, e, prev);
    HeadsAt(s0, j);
    var c := s.slotOf[e];
    ChainMembers(s0, s0.order[j]);
    assert s0.slotOf[e] == s0.order[j] by { assert ChainOk(s0, s0.order[j]); }
    hide Ok, ChainOk, AtActive, InOrder, Unlinked;
    var turns := s0.order[..j + 1];
    forall d | 0 <= d < |s0.chain| ensures Served(s0, s', done, d, d in turns) {
      TurnsNext(s0, j, d);
      assert Served(s0, s, done, d, d in s0.order[..j]);
    }
  }

  lemma RemoveVisited<V>(s0: State<V>, s: State<V>, done: set<nat>, j: nat, k: nat, op: nat, prev: int)
    requires Visited(s0, s, done, j, k, op, prev) && op in done
    ensures Shaped(s) && op < |s.home| && Fits(s, k, op, prev)
    ensures var s', waits := Removed(s, k, op, prev), s.nextPeer[op] != -1;
      && Visiting(s0, s', done, j, if waits then k + 1 else k, s.next[op], if waits then s.nextPeer[op] else prev)
      && 0 <= VisitsLeft(s', if waits then k + 1 else k) < VisitsLeft(s, k)
  {
    hide Ok, Complete, Removed, AtActive, SameRest, Advanced, Passed, TurnOf;
    RemovedOk(s, k, op, prev);
    RemovedCursor(s, k, op, prev);
    RemovedRest(s, k, op, prev);
    var s', waits := Removed(s, k, op, prev), s.nextPeer[op] != -1;
    RestThrough(s0, s, s', j, k + 1, if waits then k + 1 else k);
    SameReady(s0, s, s', j);
    PassedOut(s0, s, done, j - 1, k, op, prev);
  }

  lemma RestThrough<V>(s0: State<V>, s: State<V>, s': State<V>, j: nat, k: nat, k': nat)
    requires SameRest(s0, j, s, k) && SameRest(s, k, s', k')
    ensures SameRest(s0, j, s', k')
  {
  }

  lemma SameReady<V>(s0: State<V>, s: State<V>, s': State<V>, j: nat)
    requires Advanced(s0, s, j) && s'.ready == s.ready
    ensures Advanced(s0, s', j)
  {
  }

  /** Of the elements active in `s`, exactly the first `j` have been advanced. */
  ghost predicate Advanced<V>(s: State<V>, s': State<V>, j: nat) {
    && InOrder(s.chain, s.order) && j <= |s.order| && |s'.ready| == |s.ready|
    && forall i: nat :: i < |s.ready| ==> (s'.ready[i] <==> s.ready[i] && i !in Heads(s.chain, s.order)[..j])
  }

  /** The active elements from `k` on are those that were active in `s` from `j` on. */
  ghost predicate SameRest<V>(s: State<V>, j: nat, s': State<V>, k: nat) {
    && InOrder(s.chain, s.order) && InOrder(s'.chain, s'.order) && j <= |s.order| && k <= |s'.order|
    && Heads(s'.chain, s'.order)[k..] == Heads(s.chain, s.order)[j..]
  }

  /** The first call of an element's progress function takes it out of the ready state. */
  lemma RunningOk<V>(s0: State<V>, s: State<V>, j: nat, k: nat, e: nat, prev: int)
    requires Ok(s) && Complete(s) && AtActive(s, k, e, prev) && Advanced(s0, s, j) && SameRest(s0, j, s, k)
    ensures e < |s.ready| && k < |s.order| && j < |s0.order| && TurnOf(s0, j, e)
    ensures var s' := s.(ready := s.ready[e := false]);
      Ok(s') && Complete(s') && AtActive(s', k, e, prev) && Advanced(s0, s', j + 1) && SameRest(s0, j + 1, s', k + 1)
  {
    var s' := s.(ready := s.ready[e := false]);
    AtActiveFacts(s, k, e, prev);
    hide Linked, Holds, Distinct;
    forall c | 0 <= c < |s'.chain| ensures ChainOk(s', c) { assert ChainOk(s, c); }
    hide ChainOk, FreeOk;
    var heads, heads0 := Heads(s.chain, s.order), Heads(s0.chain, s0.order);
    assert heads[k..][0] == heads0[j..][0] == e;
    assert heads[k..][1..] == heads[k + 1..] && heads0[j..][1..] == heads0[j + 1..];
    assert heads0[..j + 1] == heads0[..j] + [heads0[j]];
  }

  /** A removal leaves the rest of the active list as it was. */
  lemma RemovedRest<V>(s: State<V>, k: nat, e: nat, prev: int)
    requires Ok(s) && AtActive(s, k, e, prev) && Fits(s, k, e, prev)
    ensures var s' := Removed(s, k, e, prev);
      s'.ready == s.ready && s'.appended == s.appended && |s'.slots| == |s.slots| && SameRest(s, k + 1, s', if s.nextPeer[e] != -1 then k + 1 else k)
  {
    AtActiveFacts(s, k, e, prev);
    hide FreeOk, ChainOk, Unlinked;
    if s.nextPeer[e] != -1 {
      OrderStays(s.chain, s.order, k);
    } else {
      OrderShrinks(s.chain, s.order, k);
      assert s.chain[s.order[k]][1..] == [];
    }
  }

  /** A position in the active list, possibly its end. */
  ghost predicate Cursor<V>(s: State<V>, k: nat, op: int, prev: int) {
    && InOrder(s.chain, s.order) && k <= |s.order|
    && op == (if k < |s.order| then Heads(s.chain, s.order)[k] else -1)
    && prev == (if k == 0 then -1 else Heads(s.chain, s.order)[k - 1])
  }

  lemma ActiveStarts<V>(s: State<V>)
    requires Ok(s)
    ensures Cursor(s, 0, s.active, -1)
  {
  }

  lemma CursorIsActive<V>(s: State<V>, k: nat, op: int, prev: int)
    requires Ok(s) && Cursor(s, k, op, prev) && op != -1
    ensures 0 <= op < |s.next| && Shaped(s) && AtActive(s, k, op, prev) && k < |s.order|
  {
  }

  lemma CursorMoves<V>(s: State<V>, k: nat, op: nat, prev: int)
    requires Ok(s) && AtActive(s, k, op, prev)
    ensures op < |s.next| && Cursor(s, k + 1, s.next[op], op)
  {
  }

  /** After a removal the walk goes on with the next active element. */
  lemma RemovedCursor<V>(s: State<V>, k: nat, e: nat, prev: int)
    requires Ok(s) && AtActive(s, k, e, prev) && Fits(s, k, e, prev)
    ensures var s' := Removed(s, k, e, prev);
      var waits := s.nextPeer[e] != -1;
      && Cursor(s', if waits then k + 1 else k, s.next[e], if waits then s.nextPeer[e] else prev)
      && |s'.order| - (if waits then k + 1 else k) == |s.order| - k - 1
      && |s'.finished| == |s.finished| && forall c :: 0 <= c < |s.finished| ==> s.finished[c] <= s'.finished[c]
  {
    AtActiveFacts(s, k, e, prev);
    hide FreeOk, ChainOk, Unlinked;
    if s.nextPeer[e] != -1 {
      OrderStays(s.chain, s.order, k);
    } else {
      OrderShrinks(s.chain, s.order, k);
      assert s.chain[s.order[k]][1..] == [];
    }
  }

  lemma GroupedComplete<V>(s: State<V>, op: Op<V>)
    requires Shaped(s) && op.slot < |s.slots| && 0 <= s.slots[op.slot] < |s.home| && Complete(s)
    ensures Complete(Grouped(s, op))
  {
  }

  lemma LooseInRange<V>(s: State<V>, e: nat)
    requires Shaped(s) && Loose(s, e)
    ensures e < |s.home|
  {
  }

  lemma OrderIsInOrder<V>(s: State<V>)
    requires Ok(s)
    ensures InOrder(s.chain, s.order)
  {
  }

  /** Allocation changes no chain, no slot, no history and no element that is in a chain. */
  ghost predicate Untouched<V>(s: State<V>, s': State<V>) {
    && s'.active == s.active && s'.slots == s.slots && s'.chain == s.chain && s'.order == s.order
    && s'.appended == s.appended && s'.finished == s.finished && Kept(s, s')
  }

  lemma UntouchedFacts<V>(s: State<V>, s': State<V>)
    requires Untouched(s, s')
    ensures Shaped(s) && Shaped(s') && s'.slots == s.slots && s'.finished == s.finished
  {
  }

  /** Elements in a chain keep their chain and what they carry. */
  ghost predicate Kept<V>(s: State<V>, s': State<V>) {
    && Shaped(s) && Shaped(s') && |s.home| <= |s'.home|
    && forall i :: 0 <= i < |s.home| && s.home[i] >= 0 ==>
         s'.home[i] == s.home[i] && s'.opCount[i] == s.opCount[i] && s'.kind[i] == s.kind[i] &&
         s'.ready[i] == s.ready[i] && s'.subs[i] == s.subs[i]
  }

  /** The operation belongs to the element that its slot points to. */
  predicate Joins<V>(s: State<V>, op: Op<V>) {
    && Shaped(s) && op.slot < |s.slots| && 0 <= s.slots[op.slot] < |s.home|
    && op.shared && s.opCount[s.slots[op.slot]] == op.opCount
  }

  /** ... but that one is full, of another kind, or running. */
  predicate Refused<V>(s: State<V>, op: Op<V>, maxSubs: nat) {
    Joins(s, op) && var e := s.slots[op.slot]; |s.subs[e]| >= maxSubs || s.kind[e] != op.kind || !s.ready[e]
  }

  /** The operation is at the end of its slot: in the last element there, or in a new one behind it. */
  ghost predicate Appended<V>(s: State<V>, s': State<V>, op: Op<V>) {
    if Joins(s, op) then s' == Grouped(s, op) else Added(s, s', op)
  }

  /** A free or new element carries the operation, as the last of its slot; without others there it is the last active one. */
  ghost predicate Added<V>(s: State<V>, s': State<V>, op: Op<V>) {
    && Kept(s, s') && op.slot < |s.chain| && op.slot < |s'.slots|
    && var e, c := s'.slots[op.slot], op.slot;
    && e >= 0 && (e < |s.home| ==> s.home[e] == -1) && Carries(s', e, op)
    && s'.slots == s.slots[c := e] && s'.chain == s.chain[c := s.chain[c] + [e]]
    && s'.order == (if s.chain[c] == [] then s.order + [c] else s.order)
    && s'.appended == s.appended[c := s.appended[c] + [op.data]] && s'.finished == s.finished
  }

  lemma ChainedAdded<V>(s0: State<V>, s: State<V>, e: nat, op: Op<V>)
    requires Ok(s0) && Complete(s0) && Untouched(s0, s) && Loose(s, e) && Carries(s, e, op)
    requires op.slot < |s0.slots| && 0 <= s.slots[op.slot] < |s.home|
    ensures Added(s0, Chained(s, e, op), op)
  {
    assert ChainOk(s0, op.slot);
  }

  lemma StartedAdded<V>(s0: State<V>, s: State<V>, e: nat, op: Op<V>, last: int)
    requires Ok(s0) && Complete(s0) && Untouched(s0, s) && Loose(s, e) && Carries(s, e, op)
    requires op.slot < |s0.slots| && s0.slots[op.slot] == -1 && (last == -1 || 0 <= last < |s.next|)
    ensures Added(s0, Started(s, e, op, last), op)
  {
    assert ChainOk(s0, op.slot);
    assert s0.chain[op.slot] + [e] == [e];
  }

  lemma ShapedByOk<V>(s: State<V>)
    requires Ok(s)
    ensures Shaped(s)
  {
  }

  lemma SlotInRange<V>(s: State<V>, c: nat)
    requires Ok(s) && c < |s.slots| && s.slots[c] != -1
    ensures Shaped(s) && 0 <= s.slots[c] < |s.home|
  {
    SlotsPoint(s, c);
  }

  /** Every element is in the free pool or in exactly one chain, once; in front of its chain it is active, behind it it has no `next`. */
  lemma OneList<V>(s: State<V>, i: nat)
    requires Ok(s) && Complete(s) && i < |s.home|
    ensures (i in s.free) <==> s.home[i] == -1
    ensures forall c :: 0 <= c < |s.chain| ==> (i in s.chain[c] <==> s.home[i] == c)
    ensures Distinct(s.free) && (s.home[i] >= 0 ==> Distinct(s.chain[s.home[i]]))
    ensures i in Heads(s.chain, s.order) <==> exists c :: 0 <= c < |s.chain| && s.chain[c] != [] && s.chain[c][0] == i
  {
    hide Linked;
    forall c | 0 <= c < |s.chain| ensures i in s.chain[c] <==> s.home[i] == c { assert ChainOk(s, c); }
    if s.home[i] >= 0 { assert ChainOk(s, s.home[i]); }
    hide ChainOk, FreeOk;
    var heads := Heads(s.chain, s.order);
    if c :| 0 <= c < |s.chain| && s.chain[c] != [] && s.chain[c][0] == i {
      var k :| 0 <= k < |s.order| && s.order[k] == c;
      assert heads[k] == i;
    }
  }

  /** Operations of one slot finish in the order they were appended. */
  lemma FinishedInOrder<V>(s: State<V>, c: nat)
    requires Ok(s) && c < |s.chain|
    ensures s.finished[c] <= s.appended[c] && (s.chain[c] == [] ==> s.finished[c] == s.appended[c])
  {
    assert ChainOk(s, c);
  }
}
