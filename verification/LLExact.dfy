/**
 Exactly which schedules let the LL reader take a stale line, and why the constants of the
 protocol do not: the cleaning period against the flag range, and how far empty steps let the
 reader run ahead.
 */
module LLExact {
  import opened Arith
  import opened LLFifo
  import opened LLSafety

  /** A state some run ends in. */
  ghost predicate EndsIn<V>(cfg: Cfg, zero: V, trace: seq<LL<V>>, events: seq<Event<V>>, s: LL<V>)
    requires cfg.Valid()
  {
    Run(cfg, zero, trace, events) && trace[|events|] == s
  }

  lemma Extend<V>(cfg: Cfg, zero: V, trace: seq<LL<V>>, events: seq<Event<V>>, s: LL<V>, e: Event<V>)
    returns (trace': seq<LL<V>>, events': seq<Event<V>>, s': LL<V>)
    requires cfg.Valid() && EndsIn(cfg, zero, trace, events, s) && Inv(cfg, zero, s)
    requires Enabled(cfg, s, e) && (e.Accept? ==> !TakesStale(cfg, s, e.o))
    ensures s' == Apply(cfg, zero, s, e) && EndsIn(cfg, zero, trace', events', s') && Inv(cfg, zero, s')
  {
    hide Inv, Apply, Enabled, TakesStale;
    ShapedByInv(cfg, zero, s);
    s' := Apply(cfg, zero, s, e);
    trace', events' := trace + [s'], events + [e];
    EventInv(cfg, zero, s, e);
  }

  /** The sender stores (and cleans) the first lines of its step, up to `upTo`. */
  lemma StoreLines<V>(cfg: Cfg, zero: V, trace: seq<LL<V>>, events: seq<Event<V>>, s: LL<V>, upTo: nat)
    returns (trace': seq<LL<V>>, events': seq<Event<V>>, s': LL<V>)
    requires cfg.Valid() && EndsIn(cfg, zero, trace, events, s) && Inv(cfg, zero, s)
    requires s.credit && Covers(s.cur, 0) && upTo <= Width(cfg, s.t)
    ensures EndsIn(cfg, zero, trace', events', s') && Inv(cfg, zero, s')
    ensures Covers(s'.cur, upTo) && s' == s.(cur := s'.cur, slots := s'.slots)
    decreases upTo
  {
    hide Inv, EndsIn;
    if upTo == 0 {
      trace', events', s' := trace, events, s;
    } else {
      trace', events', s' := StoreLines(cfg, zero, trace, events, s, upTo - 1);
      ShapedByInv(cfg, zero, s');
      trace', events', s' := Extend(cfg, zero, trace', events', s',
                                    if upTo - 1 < cfg.lens(s.t) then Store(upTo - 1, zero) else CleanUp(upTo - 1));
    }
  }

  lemma ShapedByInv<V>(cfg: Cfg, zero: V, s: LL<V>)
    requires cfg.Valid() && Inv(cfg, zero, s)
    ensures Shaped(cfg, s)
  {
  }

  /** The receiver takes the first `upTo` lines of its step, all of which have been stored. */
  lemma AcceptLines<V>(cfg: Cfg, zero: V, trace: seq<LL<V>>, events: seq<Event<V>>, s: LL<V>, upTo: nat)
    returns (trace': seq<LL<V>>, events': seq<Event<V>>, s': LL<V>)
    requires cfg.Valid() && EndsIn(cfg, zero, trace, events, s) && Inv(cfg, zero, s)
    requires Covers(s.acc, 0) && upTo <= cfg.lens(s.u)
    requires s.u < s.t || (s.u == s.t && forall o :: 0 <= o < cfg.lens(s.u) ==> o in s.cur)
    ensures EndsIn(cfg, zero, trace', events', s') && Inv(cfg, zero, s')
    ensures Covers(s'.acc, upTo) && s' == s.(acc := s'.acc)
    decreases upTo
  {
    hide Inv, EndsIn;
    if upTo == 0 {
      trace', events', s' := trace, events, s;
    } else {
      trace', events', s' := AcceptLines(cfg, zero, trace, events, s, upTo - 1);
      StoredLineHasFlag(cfg, zero, s', upTo - 1);
      trace', events', s' := Extend(cfg, zero, trace', events', s', Accept(upTo - 1));
    }
  }

  lemma StoredLineHasFlag<V>(cfg: Cfg, zero: V, s: LL<V>, o: nat)
    requires cfg.Valid() && Inv(cfg, zero, s) && o < cfg.lens(s.u)
    requires s.u < s.t || (s.u == s.t && o in s.cur)
    ensures Shaped(cfg, s) && s.slots[s.u % cfg.nSteps][o].flag == Flag(cfg, s.u)
  {
    hide Last;
    var q := s.u % cfg.nSteps;
    assert s.slots[q][o] == Expected(cfg, zero, s, q, o);
    if s.u < s.t {
      LastIsCurrent(cfg, s.t, s.u, o);
      if q == s.t % cfg.nSteps && o in s.cur {
        SameSlot(cfg.nSteps, s.t, s.u);
        assert false;
      }
    }
  }

  /** Both ends at the beginning of step `t`. */
  predicate Together<V>(s: LL<V>, t: nat) {
    s.t == s.u == t && !s.credit && Covers(s.cur, 0) && Covers(s.acc, 0)
  }

  /** The sender at step `t` with the lines of that step stored. */
  lemma BeginStep<V>(cfg: Cfg, zero: V, trace: seq<LL<V>>, events: seq<Event<V>>, s: LL<V>, upTo: nat)
    returns (trace': seq<LL<V>>, events': seq<Event<V>>, s': LL<V>)
    requires cfg.Valid() && EndsIn(cfg, zero, trace, events, s) && Inv(cfg, zero, s)
    requires s.t == s.u && !s.credit && Covers(s.cur, 0) && upTo <= Width(cfg, s.t)
    ensures EndsIn(cfg, zero, trace', events', s') && Inv(cfg, zero, s')
    ensures s'.t == s.t && s'.u == s.u && s'.credit && s'.acc == s.acc && Covers(s'.cur, upTo)
  {
    hide ReceiverOk, LinesOk, EndsIn;
    trace', events', s' := Extend(cfg, zero, trace, events, s, Poll);
    trace', events', s' := Extend(cfg, zero, trace', events', s', Credit);
    trace', events', s' := StoreLines(cfg, zero, trace', events', s', upTo);
  }

  /** The two ends in lockstep reach every step. */
  lemma Lockstep<V>(cfg: Cfg, zero: V, t: nat) returns (trace: seq<LL<V>>, events: seq<Event<V>>, s: LL<V>)
    requires cfg.Valid()
    ensures EndsIn(cfg, zero, trace, events, s) && Inv(cfg, zero, s) && Together(s, t)
    decreases t
  {
    if t == 0 {
      StartInv(cfg, zero);
      s := Start(cfg, zero);
      trace, events := [s], [];
    } else {
      hide Inv, EndsIn;
      trace, events, s := Lockstep(cfg, zero, t - 1);
      trace, events, s := BeginStep(cfg, zero, trace, events, s, Width(cfg, t - 1));
      ShapedByInv(cfg, zero, s);
      trace, events, s := Extend(cfg, zero, trace, events, s, SendNext);
      trace, events, s := AcceptLines(cfg, zero, trace, events, s, cfg.lens(t - 1));
      ShapedByInv(cfg, zero, s);
      trace, events, s := Extend(cfg, zero, trace, events, s, RecvNext);
    }
  }

  /** From step `t`, the receiver alone runs over empty steps up to `u`. */
  lemma RunAhead<V>(cfg: Cfg, zero: V, t: nat, u: nat) returns (trace: seq<LL<V>>, events: seq<Event<V>>, s: LL<V>)
    requires cfg.Valid() && t < u && EmptyBetween(cfg, t, u)
    ensures EndsIn(cfg, zero, trace, events, s) && Inv(cfg, zero, s)
    ensures s.t == t && s.u == u && Covers(s.cur, cfg.lens(t)) && s.acc == map[]
    decreases u
  {
    hide Inv, EndsIn;
    if u == t + 1 {
      trace, events, s := Lockstep(cfg, zero, t);
      trace, events, s := BeginStep(cfg, zero, trace, events, s, cfg.lens(t));
      trace, events, s := AcceptLines(cfg, zero, trace, events, s, cfg.lens(t));
    } else {
      trace, events, s := RunAhead(cfg, zero, t, u - 1);
    }
    ShapedByInv(cfg, zero, s);
    trace, events, s := Extend(cfg, zero, trace, events, s, RecvNext);
  }

  /** A clash in the schedule leads some run to take a stale line. */
  lemma ClashIsReached<V>(cfg: Cfg, zero: V, t: nat, u: nat, o: nat)
    returns (trace: seq<LL<V>>, events: seq<Event<V>>, s: LL<V>)
    requires cfg.Valid() && Clash(cfg, t, u, o)
    ensures EndsIn(cfg, zero, trace, events, s) && Shaped(cfg, s) && TakesStale(cfg, s, o)
  {
    hide EndsIn, Last;
    if t == u {
      trace, events, s := Lockstep(cfg, zero, u);
    } else {
      trace, events, s := RunAhead(cfg, zero, t, u);
    }
    var q := u % cfg.nSteps;
    assert s.slots[q][o] == Expected(cfg, zero, s, q, o);
  }

  /**
   Some run takes a stale line if and only if the schedule has a clash. The condition speaks only of
   the flag range, the cleaning period and which steps carry lines.
   */
  lemma StaleIffClash<V(!new)>(cfg: Cfg, zero: V)
    requires cfg.Valid()
    ensures (exists trace, events, s: LL<V>, o: nat ::
               EndsIn(cfg, zero, trace, events, s) && Shaped(cfg, s) && TakesStale(cfg, s, o)) <==> !ClashFree(cfg)
  {
    hide TakesStale, Inv, Clash;
    if ClashFree(cfg) {
      forall trace, events, s: LL<V>, o: nat | EndsIn(cfg, zero, trace, events, s) && Shaped(cfg, s)
        ensures !TakesStale(cfg, s, o)
      {
        RunInv(cfg, zero, trace, events, |events|);
        AcceptsOnlyFresh(cfg, zero, s, o);
      }
    } else {
      var t: nat, u: nat, o: nat :| Clash(cfg, t, u, o);
      var trace, events, s := ClashIsReached(cfg, zero, t, u, o);
    }
  }

  // ---------------------------------------------------------------- which schedules are safe

  ghost predicate SomeLine(cfg: Cfg, t: nat, g: nat) {
    exists x: nat :: t <= x <= t + g && cfg.lens(x) > 0
  }

  /** No more than `g` empty steps follow one another. */
  ghost predicate EmptyRunsBelow(cfg: Cfg, g: nat) {
    forall t: nat :: SomeLine(cfg, t, g)
  }

  /**
   If each slot is cleaned in every `period` steps and the reader cannot run ahead over more than `g`
   empty steps, and the two together stay below the flag range, no stale line is ever taken.
   */
  lemma SafeSchedule(cfg: Cfg, g: nat)
    requires cfg.Valid() && EmptyRunsBelow(cfg, g) && cfg.period + g + 1 < cfg.flagMax
    ensures ClashFree(cfg)
  {
    forall t: nat, u: nat, o: nat
      ensures !Clash(cfg, t, u, o)
    {
      if Clash(cfg, t, u, o) {
        NoClash(cfg, g, t, u, o);
      }
    }
  }

  lemma NoClash(cfg: Cfg, g: nat, t: nat, u: nat, o: nat)
    requires cfg.Valid() && EmptyRunsBelow(cfg, g) && cfg.period + g + 1 < cfg.flagMax
    requires o < cfg.lens(u) && t <= u && EmptyBetween(cfg, t, u)
    ensures FlagLeft(cfg, Writer(cfg, t, u, o)) != Flag(cfg, u)
  {
    hide Last;
    assert SomeLine(cfg, t + 1, g);
    var x: nat :| t + 1 <= x <= t + 1 + g && cfg.lens(x) > 0;
    assert u <= x;
    WrittenWithinPeriod(cfg, t, u % cfg.nSteps, o);
    FlagsDiffer(cfg.flagMax, Writer(cfg, t, u, o), u);
    DivUnique(0, cfg.flagMax, 0, 0);
  }

  /** The constants in use: 8 slots, 32-bit flags, a cleaning window in every 2^31 steps. */
  lemma ProtocolIsSafe(cfg: Cfg)
    requires cfg.Valid() && cfg.nSteps == 8 && cfg.flagMax == 0x1_0000_0000 && cfg.period == 0x8000_0000
    requires EmptyRunsBelow(cfg, 0x7fff_fffe)
    ensures ClashFree(cfg)
  {
    SafeSchedule(cfg, 0x7fff_fffe);
  }

  /** NCCL_LL_CLEAN_MASK selects the last 8 steps of every 2^31. */
  lemma CleanMask(step: bv64)
    ensures (step & 0x7fff_fff8) == 0x7fff_fff8 <==> (step & 0x7fff_ffff) >= 0x8000_0000 - 8
  {
  }

  /**
   Cleaning alone is not enough: over a whole flag range of empty steps the reader runs ahead of the
   sender and takes the line of step 0 for that of step flagMax, whatever the cleaning period.
   */
  lemma EmptyStepsFoolTheReader(cfg: Cfg)
    requires cfg.Valid() && cfg.flagMax % cfg.nSteps == 0
    requires cfg.lens(0) > 0 && cfg.lens(cfg.flagMax) > 0 && EmptyBetween(cfg, 0, cfg.flagMax)
    ensures Clash(cfg, 0, cfg.flagMax, 0)
  {
    ModShift(1, cfg.flagMax, 1);
  }
}
