/**
 How much one call of ncclProxyGetPostedOps (src/proxy.cc) consumes: operations are taken in batches that
 share peer and opCount, and a call stops before the operation that would begin one batch too many.
 */
module ProxyBatch {
  import opened Arith
  import opened ProxyPool

  /** What the batching looks at. */
  datatype Seen = Seen(opCount: nat, peer: nat)

  /** `b` behind `a` begins a new batch; behind opCount 0 only another peer does. */
  predicate Changes(a: Seen, b: Seen) { (a.opCount != 0 && b.opCount != a.opCount) || b.peer != a.peer }

  /** How often a new batch begins behind the first operation. */
  function Batches(seen: seq<Seen>): nat {
    var n := |seen| - 1;
    if n < 1 then 0 else Batches(seen[..n]) + if Changes(seen[n - 1], seen[n]) then 1 else 0
  }

  /** The operation the progress thread is at. */
  function Ahead<V>(g: Config, s: Pool<V>): Seen
    requires Shaped(g, s) && IsIx(s, s.taken)
  {
    DivNonNeg(s.taken, g.max);
    Seen(s.ops[s.taken].opCount, Peer(g, s.taken))
  }

  /** The operations consumed by the events from `a` up to but not including `i`. */
  ghost function Consumed<V>(g: Config, ops: seq<Op<V>>, trace: seq<Pool<V>>, events: seq<Event<V>>, a: nat, i: nat): seq<Seen>
    requires Run(g, ops, trace, events) && a <= i <= |events|
  {
    if a == i then []
    else Consumed(g, ops, trace, events, a, i - 1) + if events[i - 1].Drain? then [Ahead(g, trace[i - 1])] else []
  }

  predicate Begins<V>(e: Event<V>) { e.Take? || e.Resume? }

  /** Event `a` begins the call that is draining in state `i`. */
  ghost predicate BeginsCall<V>(g: Config, ops: seq<Op<V>>, trace: seq<Pool<V>>, events: seq<Event<V>>, a: nat, i: nat)
    requires Run(g, ops, trace, events)
  {
    a < i <= |events| && Begins(events[a]) && forall k :: a < k < i ==> !Begins(events[k]) && !events[k].EndDrain?
  }

  /** The counter is the number of batches begun so far in this call, and the last operation is remembered. */
  ghost predicate Counts(g: Config, seen: seq<Seen>, phase: Phase) {
    && phase.Draining? && phase.count == Batches(seen) <= g.batch
    && (if seen == [] then phase.lastPeer == -1 && phase.lastOpCount == 0
        else phase.lastPeer == seen[|seen| - 1].peer && phase.lastOpCount == seen[|seen| - 1].opCount)
  }

  lemma NoneSeen()
    ensures Batches([]) == 0
  {
  }

  lemma OneMoreSeen(seen: seq<Seen>, x: Seen)
    ensures Batches(seen + [x]) == Batches(seen) + if seen != [] && Changes(seen[|seen| - 1], x) then 1 else 0
  {
    assert (seen + [x])[..|seen|] == seen;
  }

  lemma BatchIsBatches(g: Config, seen: seq<Seen>, phase: Phase, x: Seen)
    requires Counts(g, seen, phase)
    ensures Batch(g, x.opCount, x.peer, phase) == Batches(seen + [x]) <= g.batch + 1
  {
    hide Batches;
    OneMoreSeen(seen, x);
  }

  /** What an event does to a call that is draining afterwards. */
  lemma DrainStep<V>(g: Config, s: Pool<V>, e: Event<V>)
    requires Shaped(g, s) && Enabled(g, s, e) && Apply(g, s, e).phase.Draining?
    ensures Begins(e) ==> Apply(g, s, e).phase == Draining(0, -1, 0)
    ensures e.Drain? ==> IsIx(s, s.taken) && s.phase.Draining?
    ensures e.Drain? ==> var x := Ahead(g, s);
      Apply(g, s, e).phase == Draining(x.opCount, x.peer, Batch(g, x.opCount, x.peer, s.phase)) && Batch(g, x.opCount, x.peer, s.phase) != g.batch + 1
    ensures !Begins(e) && !e.Drain? ==> !e.EndDrain? && Apply(g, s, e).phase == s.phase
  {
    hide Size, Moved, Visited, CutOf, Batch, Walk;
  }

  /** In every run: at any time during a call the counter tells how many batches it has begun, and that is never too many. */
  lemma {:induction false} CallCounts<V>(g: Config, ops: seq<Op<V>>, trace: seq<Pool<V>>, events: seq<Event<V>>, i: nat) returns (a: nat)
    requires Run(g, ops, trace, events) && i < |trace| && trace[i].phase.Draining?
    ensures BeginsCall(g, ops, trace, events, a, i)
    ensures Counts(g, Consumed(g, ops, trace, events, a, i), trace[i].phase)
  {
    hide Batches, Batch, Apply, Enabled, Shaped;
    assert i > 0;
    var s, e := trace[i - 1], events[i - 1];
    DrainStep(g, s, e);
    if Begins(e) {
      a := i - 1;
      assert Consumed(g, ops, trace, events, a, i) == [];
      NoneSeen();
    } else {
      a := CallCounts(g, ops, trace, events, i - 1);
      var before := Consumed(g, ops, trace, events, a, i - 1);
      if e.Drain? { BatchIsBatches(g, before, s.phase, Ahead(g, s)); } else { assert Consumed(g, ops, trace, events, a, i) == before; }
    }
  }

  /** A call goes on with an operation exactly if no more than the allowed number of batches have then been begun. */
  lemma CallStopsIff<V>(g: Config, ops: seq<Op<V>>, trace: seq<Pool<V>>, events: seq<Event<V>>, i: nat) returns (a: nat)
    requires Run(g, ops, trace, events) && i < |events| && (events[i].Drain? || events[i].EndDrain?)
    ensures BeginsCall(g, ops, trace, events, a, i)
    ensures var s, seen := trace[i], Consumed(g, ops, trace, events, a, i);
      events[i].Drain? <==> s.taken != -1 && Shaped(g, s) && IsIx(s, s.taken) && Batches(seen + [Ahead(g, s)]) <= g.batch
    ensures Batches(Consumed(g, ops, trace, events, a, i)) <= g.batch
  {
    hide Batches, Batch;
    a := CallCounts(g, ops, trace, events, i);
    var s, seen := trace[i], Consumed(g, ops, trace, events, a, i);
    if s.taken != -1 {
      BatchIsBatches(g, seen, s.phase, Ahead(g, s));
    }
  }
}
