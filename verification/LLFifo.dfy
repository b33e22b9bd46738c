/**
 The flag-based FIFO of the LL protocol (src/device/prims_ll.h): the sender stores lines that carry
 data and a flag, the receiver takes a line as soon as its flag is the one it waits for, and now and
 then the sender overwrites whole slots so that flags that have wrapped around cannot be mistaken.
 */
module LLFifo {
  import opened Arith

  /**
   `nSteps` slots of `lines` lines; flags are step numbers modulo `flagMax`; in each `period` of
   steps the last `nSteps` are cleaning steps. Both ends know how many lines each step carries.
   */
  datatype Cfg = Cfg(nSteps: nat, flagMax: nat, period: nat, lines: nat, lens: nat -> nat)
  {
    ghost predicate Valid() {
      && nSteps >= 1 && flagMax >= 1 && period >= nSteps && period % nSteps == 0
      && forall t :: lens(t) <= lines
    }
  }

  datatype Line<V> = Line(flag: nat, data: V)

  /** recvFlag and sendFlag. */
  function Flag(cfg: Cfg, step: nat): nat
    requires cfg.flagMax >= 1
  {
    (step + 1) % cfg.flagMax
  }

  /** The steps selected by NCCL_LL_CLEAN_MASK. */
  predicate Clean(cfg: Cfg, step: nat)
    requires cfg.period >= 1
  {
    step % cfg.period + cfg.nSteps >= cfg.period
  }

  /** How many lines step `t` writes: its own, or all of the slot in a cleaning step. */
  function Width(cfg: Cfg, t: nat): nat
    requires cfg.period >= 1
  {
    if Clean(cfg, t) then cfg.lines else cfg.lens(t)
  }

  /**
   Sender at step `t`, holding a credit or not, with the lines of that step stored so far in `cur`;
   receiver at step `u` with the lines it has accepted so far in `acc`; `sent` and `got` record the
   finished steps.
   */
  datatype LL<V> = LL(t: nat, credit: bool, cache: nat, cur: map<nat, V>, sent: seq<map<nat, V>>,
                      u: nat, head: nat, acc: map<nat, V>, got: seq<map<nat, V>>,
                      slots: seq<seq<Line<V>>>)

  datatype Event<V> = Poll | Credit | Store(o: nat, v: V) | CleanUp(o: nat) | SendNext | Accept(o: nat) | RecvNext

  /** `m` has exactly the lines below `n`. */
  predicate Covers<V>(m: map<nat, V>, n: nat) {
    (forall o :: o in m.Keys ==> o < n) && (forall o :: 0 <= o < n ==> o in m.Keys)
  }

  function Data<V>(m: map<nat, V>, n: nat): map<nat, V> {
    map o | o in m && o < n :: m[o]
  }

  function Start<V>(cfg: Cfg, zero: V): LL<V> {
    LL(0, false, 0, map[], [], 0, 0, map[], [], seq(cfg.nSteps, _ => seq(cfg.lines, _ => Line(0, zero))))
  }

  predicate Shaped<V>(cfg: Cfg, s: LL<V>) {
    |s.slots| == cfg.nSteps && forall q :: 0 <= q < cfg.nSteps ==> |s.slots[q]| == cfg.lines
  }

  predicate Enabled<V>(cfg: Cfg, s: LL<V>, e: Event<V>)
    requires cfg.nSteps >= 1 && cfg.flagMax >= 1 && cfg.period >= 1 && Shaped(cfg, s)
  {
    match e
    case Poll => true
    case Credit => !s.credit && s.cache + cfg.nSteps >= s.t + 1
    case Store(o, _) => s.credit && o !in s.cur && o < cfg.lens(s.t) && o < cfg.lines
    case CleanUp(o) => s.credit && o !in s.cur && Clean(cfg, s.t) && cfg.lens(s.t) <= o < cfg.lines
    case SendNext => s.credit && Covers(s.cur, Width(cfg, s.t))
    case Accept(o) => o !in s.acc && o < cfg.lens(s.u) && o < cfg.lines && s.slots[s.u % cfg.nSteps][o].flag == Flag(cfg, s.u)
    case RecvNext => Covers(s.acc, cfg.lens(s.u))
  }

  function Put<V>(cfg: Cfg, s: LL<V>, o: nat, v: V): LL<V>
    requires cfg.nSteps >= 1 && cfg.flagMax >= 1 && Shaped(cfg, s) && o < cfg.lines
  {
    var q := s.t % cfg.nSteps;
    s.(slots := s.slots[q := s.slots[q][o := Line(Flag(cfg, s.t), v)]], cur := s.cur[o := v])
  }

  function Apply<V>(cfg: Cfg, zero: V, s: LL<V>, e: Event<V>): (s': LL<V>)
    requires cfg.nSteps >= 1 && cfg.flagMax >= 1 && cfg.period >= 1 && Shaped(cfg, s) && Enabled(cfg, s, e)
    ensures Shaped(cfg, s')
  {
    match e
    case Poll => s.(cache := s.head)
    case Credit => s.(credit := true)
    case Store(o, v) => Put(cfg, s, o, v)
    case CleanUp(o) => Put(cfg, s, o, zero)
    case SendNext => s.(t := s.t + 1, credit := false, cur := map[], sent := s.sent + [Data(s.cur, cfg.lens(s.t))])
    case Accept(o) => s.(acc := s.acc[o := s.slots[s.u % cfg.nSteps][o].data])
    case RecvNext => s.(u := s.u + 1, head := s.u + 1, acc := map[], got := s.got + [s.acc])
  }

  ghost predicate Run<V>(cfg: Cfg, zero: V, trace: seq<LL<V>>, events: seq<Event<V>>)
    requires cfg.Valid()
  {
    && |trace| == |events| + 1
    && trace[0] == Start(cfg, zero)
    && (forall i :: 0 <= i < |events| ==>
          Shaped(cfg, trace[i]) && Enabled(cfg, trace[i], events[i]) && trace[i + 1] == Apply(cfg, zero, trace[i], events[i]))
  }

  // ---------------------------------------------------------------- who wrote a line last

  /** The last finished step that wrote line `o` of slot `q` before step `t`, or -1. */
  function Last(cfg: Cfg, t: nat, q: nat, o: nat): (s: int)
    requires cfg.nSteps >= 1 && cfg.period >= 1
    ensures -1 <= s < t
    ensures s >= 0 ==> s % cfg.nSteps == q && o < Width(cfg, s)
  {
    if t == 0 then -1
    else if (t - 1) % cfg.nSteps == q && o < Width(cfg, t - 1) then t - 1
    else Last(cfg, t - 1, q, o)
  }

  lemma {:induction false} LastAtLeast(cfg: Cfg, t: nat, q: nat, o: nat, s: nat)
    requires cfg.nSteps >= 1 && cfg.period >= 1
    requires s < t && s % cfg.nSteps == q && o < Width(cfg, s)
    ensures Last(cfg, t, q, o) >= s
  {
    if t - 1 > s {
      LastAtLeast(cfg, t - 1, q, o, s);
    }
  }

  /** The cleaning step of period `k` for the slot with residue `r`. */
  lemma CleanStep(n: nat, m: nat, k: int, r: nat)
    requires n >= 1 && m >= 1 && r < n
    ensures var c := k * (m * n) + (m * n - n) + r;
      m * n >= n && c % (m * n) == m * n - n + r && c % n == r
  {
    MulMono(1, m, n);
    var p := m * n;
    var c := k * p + (p - n) + r;
    DivUnique(c, p, k, p - n + r);
    assert c == (k * m + (m - 1)) * n + r;
    DivUnique(c, n, k * m + (m - 1), r);
  }

  /** Every slot is cleaned once in every period. */
  lemma CleanedWithinPeriod(cfg: Cfg, t: nat, q: nat) returns (c: nat)
    requires cfg.Valid() && t >= cfg.period && q < cfg.nSteps
    ensures t - cfg.period <= c < t && c % cfg.nSteps == q && Clean(cfg, c)
  {
    var n, p := cfg.nSteps, cfg.period;
    DivModFacts(t, p);
    DivModFacts(p, n);
    var m := p / n;
    assert p == m * n;
    var k := t / p;
    CleanStep(n, m, k, q);
    CleanStep(n, m, k - 1, q);
    var c1, c0 := k * p + (p - n) + q, (k - 1) * p + (p - n) + q;
    assert (k - 1) * p == k * p - p;
    c := if c1 < t then c1 else c0;
  }

  lemma WrittenWithinPeriod(cfg: Cfg, t: nat, q: nat, o: nat)
    requires cfg.Valid() && q < cfg.nSteps && o < cfg.lines
    ensures t - Last(cfg, t, q, o) <= cfg.period
  {
    hide Last;
    if t >= cfg.period {
      var c := CleanedWithinPeriod(cfg, t, q);
      LastAtLeast(cfg, t, q, o, c);
    }
  }

  /** The flag found on a line last written in step `s`; lines start with flag zero. */
  function FlagLeft(cfg: Cfg, s: int): nat
    requires cfg.flagMax >= 1 && s >= -1
  {
    if s < 0 then 0 else Flag(cfg, s)
  }

  lemma FlagsDiffer(f: nat, s: int, u: nat)
    requires f >= 1 && -1 <= s < u && u - s < f
    ensures (s + 1) % f != (u + 1) % f
  {
    DivModFacts(s + 1, f);
    DivModFacts(u + 1, f);
    var a, b := (s + 1) / f, (u + 1) / f;
    if (s + 1) % f == (u + 1) % f {
      assert (b - a) * f == u - s;
      if b - a <= 0 {
        MulMono(b - a, 0, f);
        assert false;
      }
      MulMono(1, b - a, f);
      assert false;
    }
  }
}
