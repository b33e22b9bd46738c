/** When the LL reader can and cannot be fooled by a line left from an earlier step. */
module LLSafety {
  import opened Arith
  import opened LLFifo

  /** Steps strictly between `t` and `u` carry no lines. */
  ghost predicate EmptyBetween(cfg: Cfg, t: int, u: int) {
    forall x: nat :: t < x < u ==> cfg.lens(x) == 0
  }

  /** The reader is about to take line `o` although the sender has not stored it for that step. */
  ghost predicate TakesStale<V>(cfg: Cfg, s: LL<V>, o: nat)
    requires cfg.Valid() && Shaped(cfg, s)
  {
    Enabled(cfg, s, Accept(o)) && !(s.u < s.t || (s.u == s.t && o in s.cur))
  }

  /**
   The line the reader of step `u` waits for, when the sender is at step `t`: all lines of step `t`
   have been stored if the reader is past it, and no line of a later step has.
   */
  function Writer(cfg: Cfg, t: nat, u: nat, o: nat): (s: int)
    requires cfg.nSteps >= 1 && cfg.period >= 1
    ensures s >= -1
  {
    if t < u && t % cfg.nSteps == u % cfg.nSteps && o < cfg.lens(t) then t else Last(cfg, t, u % cfg.nSteps, o)
  }

  /**
   The schedule lets flags clash: step `u` has a line `o`, the reader may have reached it over empty
   steps while the sender is still at `t`, and the line carries the same flag from an earlier step.
   */
  ghost predicate Clash(cfg: Cfg, t: nat, u: nat, o: nat)
    requires cfg.Valid()
  {
    o < cfg.lens(u) && t <= u && EmptyBetween(cfg, t, u) && FlagLeft(cfg, Writer(cfg, t, u, o)) == Flag(cfg, u)
  }

  ghost predicate ClashFree(cfg: Cfg)
    requires cfg.Valid()
  {
    forall t: nat, u: nat, o: nat :: !Clash(cfg, t, u, o)
  }

  // ---------------------------------------------------------------- the invariant

  function Datum<V>(cfg: Cfg, zero: V, s: LL<V>, z: int, o: nat): V {
    if 0 <= z < |s.sent| && o < cfg.lens(z) && o in s.sent[z] then s.sent[z][o] else zero
  }

  /** What line `o` of slot `q` holds. */
  function Expected<V>(cfg: Cfg, zero: V, s: LL<V>, q: nat, o: nat): Line<V>
    requires cfg.nSteps >= 1 && cfg.period >= 1 && cfg.flagMax >= 1
  {
    if q == s.t % cfg.nSteps && o in s.cur then Line(Flag(cfg, s.t), s.cur[o])
    else Line(FlagLeft(cfg, Last(cfg, s.t, q, o)), Datum(cfg, zero, s, Last(cfg, s.t, q, o), o))
  }

  ghost predicate LinesOk<V>(cfg: Cfg, zero: V, s: LL<V>)
    requires cfg.Valid() && Shaped(cfg, s)
  {
    forall q, o :: 0 <= q < cfg.nSteps && 0 <= o < cfg.lines ==> s.slots[q][o] == Expected(cfg, zero, s, q, o)
  }

  ghost predicate SenderOk<V>(cfg: Cfg, zero: V, s: LL<V>)
    requires cfg.Valid()
  {
    && |s.sent| == s.t
    && s.head == s.u && s.cache <= s.head
    && s.t <= s.u + cfg.nSteps
    && (s.credit ==> s.t + 1 <= s.cache + cfg.nSteps)
    && (!s.credit ==> s.cur == map[])
    && (forall o :: o in s.cur ==> o < Width(cfg, s.t))
    && (forall o :: o in s.cur && o >= cfg.lens(s.t) ==> s.cur[o] == zero)
    && (forall i :: 0 <= i < s.t ==> Covers(s.sent[i], cfg.lens(i)))
  }

  /** What step `i` has delivered so far on the sender's side. */
  ghost function Truth<V>(cfg: Cfg, s: LL<V>, i: nat): map<nat, V> {
    if i < |s.sent| then s.sent[i] else if i == s.t then Data(s.cur, cfg.lens(i)) else map[]
  }

  ghost predicate ReceiverOk<V>(cfg: Cfg, s: LL<V>)
    requires cfg.Valid()
  {
    && |s.got| == s.u
    && EmptyBetween(cfg, s.t, s.u)
    && (s.u > s.t ==> s.acc == map[] && forall o :: 0 <= o < cfg.lens(s.t) ==> o in s.cur)
    && (forall i :: 0 <= i < s.u ==> s.got[i] == Truth(cfg, s, i))
    && (forall o :: o in s.acc ==> o < cfg.lens(s.u) && o in Truth(cfg, s, s.u) && s.acc[o] == Truth(cfg, s, s.u)[o])
  }

  ghost predicate Inv<V>(cfg: Cfg, zero: V, s: LL<V>)
    requires cfg.Valid()
  {
    Shaped(cfg, s) && SenderOk(cfg, zero, s) && ReceiverOk(cfg, s) && LinesOk(cfg, zero, s)
  }

  /** While the receiver is at step `u`, the sender has not reused the slot of `u`. */
  lemma LastIsCurrent(cfg: Cfg, t: nat, u: nat, o: nat)
    requires cfg.Valid() && u < t <= u + cfg.nSteps && o < cfg.lens(u)
    ensures Last(cfg, t, u % cfg.nSteps, o) == u
  {
    hide Last;
    LastAtLeast(cfg, t, u % cfg.nSteps, o, u);
    SameSlot(cfg.nSteps, Last(cfg, t, u % cfg.nSteps, o), u);
  }

  lemma SameSlot(n: nat, a: nat, b: nat)
    requires n >= 1 && a % n == b % n && b <= a < b + n
    ensures a == b
  {
    DivModFacts(a, n);
    DivModFacts(b, n);
    if a / n > b / n {
      MulMono(b / n + 1, a / n, n);
      assert false;
    } else if a / n < b / n {
      MulMono(a / n + 1, b / n, n);
      assert false;
    }
  }

  /** Without clashes the receiver accepts a line only once the sender has stored it for that step. */
  lemma AcceptsOnlyFresh<V>(cfg: Cfg, zero: V, s: LL<V>, o: nat)
    requires cfg.Valid() && Inv(cfg, zero, s) && ClashFree(cfg)
    ensures !TakesStale(cfg, s, o)
  {
    hide Last;
    if TakesStale(cfg, s, o) {
      var q := s.u % cfg.nSteps;
      assert s.slots[q][o] == Expected(cfg, zero, s, q, o);
      assert !Clash(cfg, s.t, s.u, o);
      if s.t < s.u {
        assert !Clash(cfg, s.t + 1, s.u, o);
        if q == s.t % cfg.nSteps && o in s.cur && o >= cfg.lens(s.t) {
          CleanedLast(cfg, s.t, s.u, o);
        }
      }
      assert false;
    }
  }

  lemma CleanedLast(cfg: Cfg, t: nat, u: nat, o: nat)
    requires cfg.Valid() && t < u && t % cfg.nSteps == u % cfg.nSteps && o < Width(cfg, t) && EmptyBetween(cfg, t, u)
    ensures Writer(cfg, t + 1, u, o) == t
  {
  }

  /** An accepted line has the data of its step. */
  lemma AcceptedData<V>(cfg: Cfg, zero: V, s: LL<V>, o: nat)
    requires cfg.Valid() && Inv(cfg, zero, s) && Enabled(cfg, s, Accept(o)) && !TakesStale(cfg, s, o)
    ensures o in Truth(cfg, s, s.u) && s.slots[s.u % cfg.nSteps][o].data == Truth(cfg, s, s.u)[o]
  {
    hide Last;
    var q := s.u % cfg.nSteps;
    assert s.slots[q][o] == Expected(cfg, zero, s, q, o);
    if s.u < s.t {
      LastIsCurrent(cfg, s.t, s.u, o);
      if q == s.t % cfg.nSteps && o in s.cur {
        SameSlot(cfg.nSteps, s.t, s.u);
        assert false;
      }
    }
  }

  // ---------------------------------------------------------------- every event keeps the invariant

  lemma StartInv<V>(cfg: Cfg, zero: V)
    requires cfg.Valid()
    ensures Inv(cfg, zero, Start(cfg, zero))
  {
  }

  lemma PutInv<V>(cfg: Cfg, zero: V, s: LL<V>, o: nat, v: V)
    requires cfg.Valid() && Inv(cfg, zero, s) && s.credit && o !in s.cur && o < cfg.lines
    requires o < cfg.lens(s.t) || (Clean(cfg, s.t) && v == zero)
    ensures Inv(cfg, zero, Put(cfg, s, o, v))
  {
    hide Last;
    var s' := Put(cfg, s, o, v);
    forall q, p | 0 <= q < cfg.nSteps && 0 <= p < cfg.lines
      ensures s'.slots[q][p] == Expected(cfg, zero, s', q, p)
    {
      assert s.slots[q][p] == Expected(cfg, zero, s, q, p);
    }
    forall i | 0 <= i < s.u
      ensures s'.got[i] == Truth(cfg, s', i)
    {
      assert s.got[i] == Truth(cfg, s, i);
    }
  }

  lemma SendNextInv<V>(cfg: Cfg, zero: V, s: LL<V>)
    requires cfg.Valid() && Inv(cfg, zero, s) && Enabled<V>(cfg, s, SendNext)
    ensures Inv(cfg, zero, Apply(cfg, zero, s, SendNext))
  {
    var s' := Apply<V>(cfg, zero, s, SendNext);
    forall q, o | 0 <= q < cfg.nSteps && 0 <= o < cfg.lines
      ensures s'.slots[q][o] == Expected(cfg, zero, s', q, o)
    {
      assert s.slots[q][o] == Expected(cfg, zero, s, q, o);
    }
    forall i | 0 <= i < s.u
      ensures s'.got[i] == Truth(cfg, s', i)
    {
      assert s.got[i] == Truth(cfg, s, i);
    }
    if s.u > s.t + 1 {
      assert cfg.lens(s.t + 1) == 0;
    }
  }

  lemma AcceptInv<V>(cfg: Cfg, zero: V, s: LL<V>, o: nat)
    requires cfg.Valid() && Inv(cfg, zero, s) && Enabled(cfg, s, Accept(o)) && !TakesStale(cfg, s, o)
    ensures Inv(cfg, zero, Apply(cfg, zero, s, Accept(o)))
  {
    hide LinesOk;
    AcceptedData(cfg, zero, s, o);
    LinesKept(cfg, zero, s, Apply(cfg, zero, s, Accept(o)));
  }

  lemma LinesKept<V>(cfg: Cfg, zero: V, s: LL<V>, s': LL<V>)
    requires cfg.Valid() && Shaped(cfg, s) && SenderOk(cfg, zero, s) && LinesOk(cfg, zero, s)
    requires s'.slots == s.slots && s'.sent == s.sent && s'.cur == s.cur && s'.t == s.t && s'.credit == s.credit
    requires s'.cache == s.cache && s'.head == s'.u && s'.u >= s.u
    ensures Shaped(cfg, s') && SenderOk(cfg, zero, s') && LinesOk(cfg, zero, s')
  {
    forall q, o | 0 <= q < cfg.nSteps && 0 <= o < cfg.lines
      ensures s'.slots[q][o] == Expected(cfg, zero, s', q, o)
    {
      assert s.slots[q][o] == Expected(cfg, zero, s, q, o);
    }
  }

  /** When the receiver moves on it has all the lines of its step, and only empty steps if it is ahead. */
  lemma AcceptedAll<V>(cfg: Cfg, zero: V, s: LL<V>)
    requires cfg.Valid() && SenderOk(cfg, zero, s) && ReceiverOk(cfg, s) && Covers(s.acc, cfg.lens(s.u))
    ensures s.acc == Truth(cfg, s, s.u)
    ensures s.u > s.t ==> cfg.lens(s.u) == 0
    ensures s.u == s.t ==> forall o :: 0 <= o < cfg.lens(s.t) ==> o in s.cur
  {
    if s.u < s.t {
      assert Covers(s.sent[s.u], cfg.lens(s.u));
    } else if s.u > s.t {
      assert !(0 in s.acc.Keys);
    }
    forall o | s.u == s.t && 0 <= o < cfg.lens(s.t)
      ensures o in s.cur
    {
      assert o in s.acc;
    }
  }

  lemma RecvNextInv<V>(cfg: Cfg, zero: V, s: LL<V>)
    requires cfg.Valid() && Inv(cfg, zero, s) && Enabled<V>(cfg, s, RecvNext)
    ensures Inv(cfg, zero, Apply(cfg, zero, s, RecvNext))
  {
    hide LinesOk, SenderOk, Covers;
    var s' := Apply<V>(cfg, zero, s, RecvNext);
    assert s.head == s.u && |s.sent| == s.t by { HeadIsStep(cfg, zero, s); }
    LinesKept(cfg, zero, s, s');
    AcceptedAll(cfg, zero, s);
    forall i | 0 <= i < s'.u
      ensures s'.got[i] == Truth(cfg, s', i)
    {
      if i < s.u {
        assert s.got[i] == Truth(cfg, s, i);
      }
    }
  }

  lemma HeadIsStep<V>(cfg: Cfg, zero: V, s: LL<V>)
    requires cfg.Valid() && SenderOk(cfg, zero, s)
    ensures s.head == s.u && |s.sent| == s.t
  {
  }

  /** Looking at the head counter and taking a credit. */
  lemma CreditInv<V>(cfg: Cfg, zero: V, s: LL<V>, e: Event<V>)
    requires cfg.Valid() && Inv(cfg, zero, s) && Enabled(cfg, s, e) && (e.Poll? || e.Credit?)
    ensures Inv(cfg, zero, Apply(cfg, zero, s, e))
  {
    var s' := Apply(cfg, zero, s, e);
    forall q, o | 0 <= q < cfg.nSteps && 0 <= o < cfg.lines
      ensures s'.slots[q][o] == Expected(cfg, zero, s', q, o)
    {
      assert s.slots[q][o] == Expected(cfg, zero, s, q, o);
    }
  }

  lemma EventInv<V>(cfg: Cfg, zero: V, s: LL<V>, e: Event<V>)
    requires cfg.Valid() && Inv(cfg, zero, s) && Enabled(cfg, s, e) && (e.Accept? ==> !TakesStale(cfg, s, e.o))
    ensures Inv(cfg, zero, Apply(cfg, zero, s, e))
  {
    hide SenderOk, ReceiverOk, LinesOk, TakesStale, Put;
    match e
    case Poll => CreditInv(cfg, zero, s, e);
    case Credit => CreditInv(cfg, zero, s, e);
    case Store(o, v) => PutInv(cfg, zero, s, o, v);
    case CleanUp(o) => PutInv(cfg, zero, s, o, zero);
    case SendNext => SendNextInv(cfg, zero, s);
    case Accept(o) => AcceptInv(cfg, zero, s, o);
    case RecvNext => RecvNextInv(cfg, zero, s);
  }

  lemma {:induction false} RunInv<V>(cfg: Cfg, zero: V, trace: seq<LL<V>>, events: seq<Event<V>>, i: nat)
    requires cfg.Valid() && ClashFree(cfg) && Run(cfg, zero, trace, events) && i < |trace|
    ensures Inv(cfg, zero, trace[i])
  {
    hide Inv, Apply, ClashFree, TakesStale;
    if i == 0 {
      StartInv(cfg, zero);
    } else {
      RunInv(cfg, zero, trace, events, i - 1);
      if events[i - 1].Accept? {
        AcceptsOnlyFresh(cfg, zero, trace[i - 1], events[i - 1].o);
      }
      EventInv(cfg, zero, trace[i - 1], events[i - 1]);
    }
  }

  /** In every run of a clash-free schedule, each step the receiver finishes holds exactly what the sender put into it. */
  lemma DeliveredInOrder<V>(cfg: Cfg, zero: V, trace: seq<LL<V>>, events: seq<Event<V>>, i: nat, k: nat)
    requires cfg.Valid() && ClashFree(cfg) && Run(cfg, zero, trace, events) && i < |trace|
    requires k < |trace[i].got| && k < |trace[i].sent|
    ensures trace[i].got[k] == trace[i].sent[k]
  {
    hide Run, ClashFree, LinesOk, SenderOk;
    RunInv(cfg, zero, trace, events, i);
  }

  // ---------------------------------------------------------------- how far the sender can go, and that somebody always can

  /** The event can happen, for a credit after the sender has looked at the head counter again. */
  ghost predicate Possible<V>(cfg: Cfg, zero: V, s: LL<V>, e: Event<V>)
    requires cfg.Valid() && Shaped(cfg, s)
  {
    Enabled(cfg, s, e) || (e.Credit? && Enabled(cfg, Apply<V>(cfg, zero, s, Poll), e))
  }

  predicate BySender<V>(e: Event<V>) { e.Credit? || e.Store? || e.CleanUp? || e.SendNext? }

  predicate ByReceiver<V>(e: Event<V>) { e.Accept? || e.RecvNext? }

  /** After looking at the head counter, the sender gets a credit exactly while it is less than all slots ahead. */
  lemma CreditIff<V>(cfg: Cfg, zero: V, trace: seq<LL<V>>, events: seq<Event<V>>, i: nat)
    requires cfg.Valid() && ClashFree(cfg) && Run(cfg, zero, trace, events) && i < |trace|
    ensures Shaped(cfg, trace[i])
    ensures Enabled(cfg, Apply<V>(cfg, zero, trace[i], Poll), Credit) <==> !trace[i].credit && trace[i].t < trace[i].u + cfg.nSteps
  {
    hide Run, ClashFree, LinesOk, ReceiverOk;
    RunInv(cfg, zero, trace, events, i);
  }

  /** A line of its step that the sender has not stored yet, if there is one. */
  lemma Missing<V>(m: map<nat, V>, n: nat) returns (o: nat)
    requires !Covers(m, n) && forall o :: o in m ==> o < n
    ensures o < n && o !in m
  {
    o :| o < n && o !in m.Keys;
  }

  /** With a credit the sender can store, clean or finish. */
  lemma SenderWorks<V>(cfg: Cfg, zero: V, s: LL<V>) returns (e: Event<V>)
    requires cfg.Valid() && Inv(cfg, zero, s) && s.credit
    ensures BySender(e) && Enabled(cfg, s, e)
  {
    hide LinesOk, ReceiverOk, Covers;
    if Covers(s.cur, Width(cfg, s.t)) {
      e := SendNext;
    } else {
      var o := Missing(s.cur, Width(cfg, s.t));
      e := if o < cfg.lens(s.t) then Store(o, zero) else CleanUp(o);
    }
  }

  /** A line of a step the sender has finished carries the flag the receiver waits for. */
  lemma LineIsThere<V>(cfg: Cfg, zero: V, s: LL<V>, o: nat)
    requires cfg.Valid() && Inv(cfg, zero, s) && s.u < s.t && o < cfg.lens(s.u) && o !in s.acc
    ensures Enabled<V>(cfg, s, Accept(o))
  {
    hide Last;
    var q := s.u % cfg.nSteps;
    assert s.slots[q][o] == Expected(cfg, zero, s, q, o);
    LastIsCurrent(cfg, s.t, s.u, o);
    if q == s.t % cfg.nSteps && o in s.cur {
      assert s.credit;
      SameSlot(cfg.nSteps, s.t, s.u);
      assert false;
    }
  }

  /** Behind the sender, the receiver can take a line or go on to the next step. */
  lemma ReceiverWorks<V>(cfg: Cfg, zero: V, s: LL<V>) returns (e: Event<V>)
    requires cfg.Valid() && Inv(cfg, zero, s) && s.u < s.t
    ensures ByReceiver(e) && Enabled(cfg, s, e)
  {
    if Covers(s.acc, cfg.lens(s.u)) {
      e := RecvNext;
    } else {
      var o := Missing(s.acc, cfg.lens(s.u));
      LineIsThere(cfg, zero, s, o);
      e := Accept(o);
    }
  }

  /** The sender can act exactly while it has a credit or is less than all slots ahead of the receiver. */
  lemma SenderGoesIff<V(!new)>(cfg: Cfg, zero: V, trace: seq<LL<V>>, events: seq<Event<V>>, i: nat)
    requires cfg.Valid() && ClashFree(cfg) && Run(cfg, zero, trace, events) && i < |trace|
    ensures Shaped(cfg, trace[i])
    ensures (exists e: Event<V> :: BySender(e) && Possible(cfg, zero, trace[i], e)) <==>
            trace[i].credit || trace[i].t < trace[i].u + cfg.nSteps
  {
    hide Run, ClashFree, LinesOk, ReceiverOk, SenderOk;
    var s := trace[i];
    RunInv(cfg, zero, trace, events, i);
    CreditIff(cfg, zero, trace, events, i);
    CacheBehind(cfg, zero, s);
    if s.credit {
      var e := SenderWorks(cfg, zero, s);
      assert Possible(cfg, zero, s, e);
    } else if s.t < s.u + cfg.nSteps {
      assert Possible<V>(cfg, zero, s, Credit);
    }
  }

  lemma CacheBehind<V>(cfg: Cfg, zero: V, s: LL<V>)
    requires cfg.Valid() && SenderOk(cfg, zero, s)
    ensures s.cache <= s.u
  {
  }

  /** No reachable state is stuck: the sender, or a receiver that is behind it, can act. */
  lemma NeverBlocks<V(!new)>(cfg: Cfg, zero: V, trace: seq<LL<V>>, events: seq<Event<V>>, i: nat)
    requires cfg.Valid() && ClashFree(cfg) && Run(cfg, zero, trace, events) && i < |trace|
    ensures Shaped(cfg, trace[i])
    ensures trace[i].u < trace[i].t ==> exists e: Event<V> :: ByReceiver(e) && Possible(cfg, zero, trace[i], e)
    ensures exists e: Event<V> :: (BySender(e) || ByReceiver(e)) && Possible(cfg, zero, trace[i], e)
  {
    hide Run, ClashFree, LinesOk, ReceiverOk, SenderOk, Possible;
    var s := trace[i];
    RunInv(cfg, zero, trace, events, i);
    SenderGoesIff(cfg, zero, trace, events, i);
    if s.u < s.t {
      var e := ReceiverWorks(cfg, zero, s);
      assert Possible(cfg, zero, s, e) by { EnabledIsPossible(cfg, zero, s, e); }
    }
  }

  lemma EnabledIsPossible<V>(cfg: Cfg, zero: V, s: LL<V>, e: Event<V>)
    requires cfg.Valid() && Shaped(cfg, s) && Enabled(cfg, s, e)
    ensures Possible(cfg, zero, s, e)
  {
  }
}
