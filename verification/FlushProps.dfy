/** Flush tracking: the recorded low against the history of the run. */
module FlushProps {

  import opened ExitFilter
  import opened ExitEngine
  import opened Amounts
  import opened PositionSpec
  import opened PositionProps

  /** The filtered mcaps of the decay-evaluated ticks since the current flush opened; empty outside
      a flush. Ticks above the drop threshold are listed too, although they do not touch the low. */
  function FlushTape(cfg: Config, p: Pos, es: seq<PosEvent>): seq<real> {
    if es == [] then []
    else
      var n := |es| - 1;
      var q := PosRun(cfg, p, es[..n]);
      var before := FlushTape(cfg, p, es[..n]);
      if DecayVerdict(cfg, q, es[n]).None? then before
      else if !PosStep(cfg, q, es[n]).0.guard.flushActive then []
      else before + [ObserveView(cfg, es[n].now, q.entry, q.tape).cur]
  }

  predicate IsMin(x: real, s: seq<real>) { x in s && forall y :: y in s ==> x <= y }

  /** The recorded low sits at least `flushDrop` percent under today's high. */
  predicate FlushInv(cfg: Config, p: Pos) {
    && 0.0 <= p.tape.highest
    && (p.guard.flushActive ==>
          0.0 <= p.guard.flushLow <= p.tape.highest && DrawdownPct(p.tape.highest, p.guard.flushLow) >= cfg.v4.flushDrop)
  }

  lemma CancelFactor(a: real, b: real, h: real)
    requires h > 0.0 && a * h == b * h
    ensures a == b
  {
    assert (a - b) * h == a * h - b * h;
  }

  /** The drop from the high as one minus a quotient. */
  lemma DropIsComplement(h: real, c: real)
    requires h > 0.0
    ensures (h - c) / h == 1.0 - c / h
  {
    var q, r := (h - c) / h, c / h;
    assert q * h == h - c && r * h == c;
    CancelFactor(q, 1.0 - r, h);
  }

  /** A later, higher high only deepens the drop of an old low; so does a lower price. */
  lemma DrawdownOrder(h: real, h': real, c: real, c': real)
    requires 0.0 <= c <= h <= h' && 0.0 <= c'
    ensures DrawdownPct(h, c) <= DrawdownPct(h', c)
    ensures c' <= c ==> DrawdownPct(h, c) <= DrawdownPct(h, c')
  {
    if h > 0.0 {
      DropIsComplement(h, c);
      DropIsComplement(h', c);
      DropIsComplement(h, c');
      QuotientOrder(c, h, h');
      if c' <= c { NumeratorOrder(c', c, h); }
    } else if h' > 0.0 {
      DropIsComplement(h', c);
      NumeratorOrder(c, h', h');
    }
  }

  lemma QuotientOrder(c: real, h: real, h': real)
    requires 0.0 <= c && 0.0 < h <= h'
    ensures c / h' <= c / h
  {
    var q := c / h';
    assert q >= 0.0;
    assert q * h <= q * h';
    assert q * h' == c;
  }

  lemma NumeratorOrder(a: real, b: real, h: real)
    requires a <= b && 0.0 < h
    ensures a / h <= b / h
  {
  }

  lemma FlushStepMin(cfg: Config, cur: real, highest: real, g: Guard, before: seq<real>)
    requires 0.0 <= cur <= highest
    requires g.flushActive ==> 0.0 <= g.flushLow <= highest && DrawdownPct(highest, g.flushLow) >= cfg.v4.flushDrop && IsMin(g.flushLow, before)
    requires !g.flushActive ==> before == []
    ensures var g' := FlushStep(cfg, cur, highest, g);
            g'.flushActive ==> 0.0 <= g'.flushLow <= highest && DrawdownPct(highest, g'.flushLow) >= cfg.v4.flushDrop
                               && IsMin(g'.flushLow, before + [cur])
  {
    if g.flushActive && DrawdownPct(highest, cur) < cfg.v4.flushDrop && cur < g.flushLow {
      DrawdownOrder(highest, highest, g.flushLow, cur);
    }
    hide DrawdownPct;
    assert before + [cur] != [] && cur in before + [cur];
  }

  /** What a tick does to the high and the flush fields. */
  lemma TickFlush(cfg: Config, now: nat, p: Pos)
    requires !p.sells.closing
    ensures var p', v := TickStep(cfg, now, p).0, ObserveView(cfg, now, p.entry, p.tape);
            var g := FlushStep(cfg, v.cur, MaxR(p.tape.highest, v.cur), p.guard);
            && p'.tape.highest == MaxR(p.tape.highest, v.cur)
            && p'.guard.flushActive == (if DecayVerdict(cfg, p, Tick(now)).Some? then g else p.guard).flushActive
            && p'.guard.flushLow == (if DecayVerdict(cfg, p, Tick(now)).Some? then g else p.guard).flushLow
  {
    hide Filtered, NoteSample, PushTick, RawMcap, PnlAt, Velocity, RefreshLive, KillAfter, ExitStage, DecayEvaluated, DecayBad, LockFloor, TpFor, DrawdownPct, RecoveryScore, LiteMetrics;
    var v, q := ObserveView(cfg, now, p.entry, p.tape), Prepared(cfg, now, p);
    ExitStageFlush(cfg, v, TpFor(cfg, q.live), KillAfter(cfg, v, q.entry, q.tape.highest), q);
  }

  lemma ExitStageFlush(cfg: Config, v: View, tp: TpProfile, kill: nat, p: Pos)
    ensures var p' := ExitStage(cfg, v, tp, kill, p).0;
            var g := if DecayEvaluated(cfg, v, p.entry, p.live) then FlushStep(cfg, v.cur, p.tape.highest, p.guard) else p.guard;
            && p'.tape.highest == p.tape.highest && p'.tape.peak == p.tape.peak
            && p'.guard.flushActive == g.flushActive && p'.guard.flushLow == g.flushLow
  {
    hide TimeKillDue, Crash, DecayEvaluated, DecayBad, FlushStep, ProfitStage, SlBad, SlGrace, RecoveryScore, LiteMetrics;
    var d := DecayStep(cfg, v, p.entry, p.tape, p.live, p.guard);
    ProfitStageGuard(cfg, v, tp, p.(guard := d.(slStreak := SlCount(SlBad(cfg, v, d.floor), d.slStreak))));
  }

  lemma FilteredNotNegative(s: seq<real>, enter: real, low: real, high: real)
    ensures Filtered(s, enter, low, high) >= 0.0
  {
    hide Filtered;
    FilteredIsSample(s, enter, low, high);
  }

  ghost predicate FlushTrue(cfg: Config, p: Pos, tape: seq<real>) {
    && FlushInv(cfg, p)
    && (p.guard.flushActive ==> IsMin(p.guard.flushLow, tape))
    && (!p.guard.flushActive ==> tape == [])
  }

  lemma StepFlush(cfg: Config, p: Pos, e: PosEvent, before: seq<real>)
    requires FlushTrue(cfg, p, before)
    ensures var p' := PosStep(cfg, p, e).0;
            var tape := if DecayVerdict(cfg, p, e).None? then before
                        else if !p'.guard.flushActive then []
                        else before + [ObserveView(cfg, e.now, p.entry, p.tape).cur];
            FlushTrue(cfg, p', tape)
  {
    hide DecayVerdict, TickStep, ObserveView, DrawdownPct, FlushStep;
    if !e.Tick? {
      NotATick(cfg, p, e);
    } else if p.sells.closing {
      ClosingTickIsIdle(cfg, p, e.now);
    } else {
      TickFlush(cfg, e.now, p);
      CurNotNegative(cfg, e.now, p);
      var cur := ObserveView(cfg, e.now, p.entry, p.tape).cur;
      var high := MaxR(p.tape.highest, cur);
      if p.guard.flushActive { DrawdownOrder(p.tape.highest, high, p.guard.flushLow, 0.0); }
      FlushStepMin(cfg, cur, high, p.guard, before);
    }
  }

  lemma CurNotNegative(cfg: Config, now: nat, p: Pos)
    ensures ObserveView(cfg, now, p.entry, p.tape).cur >= 0.0
  {
    hide Filtered, NoteSample, PushTick, RawMcap, PnlAt, Velocity;
    var t := ObserveTape(cfg, now, p.entry, p.tape);
    FilteredNotNegative(t.ticks, ToFloat(p.entry.mcapRaw), cfg.bandLow, cfg.bandHigh);
  }

  /** During a flush, `flush_low_mcap` is the smallest filtered mcap over all decay-evaluated ticks
      since the flush opened, whatever the drop threshold. */
  lemma {:induction false} FlushLowIsMinimum(cfg: Config, p: Pos, es: seq<PosEvent>)
    requires !p.guard.flushActive && p.tape.highest >= 0.0
    ensures var q := PosRun(cfg, p, es);
            (q.guard.flushActive ==> IsMin(q.guard.flushLow, FlushTape(cfg, p, es)))
            && (!q.guard.flushActive ==> FlushTape(cfg, p, es) == [])
    ensures FlushTrue(cfg, PosRun(cfg, p, es), FlushTape(cfg, p, es))
  {
    if es != [] {
      hide DecayVerdict, PosStep, ObserveView, FlushInv;
      var n := |es| - 1;
      FlushLowIsMinimum(cfg, p, es[..n]);
      StepFlush(cfg, PosRun(cfg, p, es[..n]), es[n], FlushTape(cfg, p, es[..n]));
    }
  }
}
