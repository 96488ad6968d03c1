/**
 What a tick sees, remembers and counts before it decides: market caps and profits, the session high over a
 whole life, the locked floor, the flush and decay bookkeeping, and the refresh of score, phase and profile.
 */
module TickLaws {

  import opened Common
  import opened ExitFilter
  import opened ExitEngine
  import opened Amounts
  import opened PositionSpec
  import opened PositionProps
  import opened FloorProps
  import opened FlushProps
  import opened ExitLaws

  // ---- what a tick sees -----------------------------------------------------------------------------

  /** Profit in percent, as a law: a market cap is the entry's times one plus the profit. */
  lemma ProfitMeans(e: Entry, mcap: real)
    ensures e.mcapRaw > 0 ==> mcap * SCALE * 100.0 == e.mcapRaw as real * (100.0 + PnlAt(e, mcap))
    ensures e.mcapRaw == 0 ==> PnlAt(e, mcap) == 0.0
  {
    if e.mcapRaw > 0 {
      var enter := ToFloat(e.mcapRaw);
      var q := mcap / enter;
      assert q * enter == mcap && enter * SCALE == e.mcapRaw as real;
      Scaled(q, enter, SCALE, enter * SCALE, mcap * SCALE);
    }
  }

  lemma Scaled(q: real, enter: real, scale: real, raw: real, mcap: real)
    requires raw == enter * scale && mcap == q * enter * scale
    ensures mcap * 100.0 == raw * (100.0 + (q - 1.0) * 100.0)
  {
    assert mcap == q * raw;
  }

  /** Velocity, as a law: percent of the entry per second between the two samples, the gap at least one second. */
  lemma VelocityMeans(t: Tape, enter: real)
    ensures enter > 0.0 ==>
              var gap := if t.tkLastSecs <= t.tkPrevSecs + 1 then 1 else t.tkLastSecs - t.tkPrevSecs;
              Velocity(t, enter) * enter * (gap as real) == (t.tkLastMcap - t.tkPrevMcap) * 100.0
    ensures enter <= 0.0 ==> Velocity(t, enter) == 0.0
  {
    if enter > 0.0 {
      var gap := MaxN(SatSub(t.tkLastSecs, t.tkPrevSecs), 1) as real;
      var d := t.tkLastMcap - t.tkPrevMcap;
      var r := d / enter;
      assert r * enter == d;
      Quotient(r * 100.0, gap, r * 100.0 / gap);
      assert r * 100.0 / gap * enter * gap == r * 100.0 / gap * gap * enter;
    }
  }

  lemma Quotient(a: real, b: real, q: real)
    requires b > 0.0 && q == a / b
    ensures q * b == a
  {
  }

  /** What a tick sees: the Jupiter market cap once the position is switched to it and one is known, the pool's
      before; the filter over the newest valid raw ticks; both profits; the age. What it remembers: this raw
      value, and the larger of the old and the new high and peak. */
  lemma TickSees(cfg: Config, now: nat, p: Pos)
    ensures var v, t := ObserveView(cfg, now, p.entry, p.tape), Prepared(cfg, now, p).tape;
            && v.raw == (if p.tape.useJupiter && p.tape.jupiter.Some? && p.tape.jupiter.value > 0.0 then p.tape.jupiter.value else p.tape.pool)
            && v.cur == Filtered(t.ticks, ToFloat(p.entry.mcapRaw), cfg.bandLow, cfg.bandHigh)
            && t.ticks == (if 0.0 < v.raw <= 200000.0 then Last(p.tape.ticks + [v.raw], cfg.medianTicks) else p.tape.ticks)
            && v.profit == PnlAt(p.entry, v.cur) && v.profitRaw == PnlAt(p.entry, v.raw)
            && v.held == (if now >= p.entry.time then now - p.entry.time else 0)
            && t.prevRaw == Some(v.raw) && v.vel == Velocity(t, ToFloat(p.entry.mcapRaw))
            && t.highest >= v.cur && t.highest >= p.tape.highest && (t.highest == v.cur || t.highest == p.tape.highest)
            && t.peak >= v.profit && t.peak >= p.tape.peak && (t.peak == v.profit || t.peak == p.tape.peak)
            && t.pool == p.tape.pool && t.useJupiter == p.tape.useJupiter && t.jupiter == p.tape.jupiter
            && Sampled(p.tape, now, v.cur, t)
  {
    hide Filtered, PnlAt, Velocity, ToFloat, RefreshLive, LockFloor, NoteSample, TickDrop;
    SampleMeans(p.tape, now, ObserveView(cfg, now, p.entry, p.tape).cur);
  }

  /** The two samples after a new one: the newest is this one; the other is the newest of an earlier second,
      or this one when there was none before. */
  predicate Sampled(t: Tape, now: nat, mcap: real, t': Tape) {
    && t'.tkLastSecs == now && t'.tkLastMcap == mcap
    && (t.tkLastSecs == 0 ==> t'.tkPrevSecs == now && t'.tkPrevMcap == mcap)
    && (0 < t.tkLastSecs == now ==> t'.tkPrevSecs == t.tkPrevSecs && t'.tkPrevMcap == t.tkPrevMcap)
    && (0 < t.tkLastSecs != now ==> t'.tkPrevSecs == t.tkLastSecs && t'.tkPrevMcap == t.tkLastMcap)
  }

  lemma SampleMeans(t: Tape, now: nat, mcap: real)
    ensures var n := NoteSample(t, now, mcap);
            && n == t.(tkLastSecs := n.tkLastSecs, tkLastMcap := n.tkLastMcap, tkPrevSecs := n.tkPrevSecs, tkPrevMcap := n.tkPrevMcap)
            && Sampled(t, now, mcap, n)
  {
  }

  /** The filtered market caps, and the profits, of the ticks on the open position over a run. */
  function SeenCaps(cfg: Config, p: Pos, es: seq<PosEvent>): seq<real> {
    if es == [] then []
    else
      var q, e := PosRun(cfg, p, es[..|es| - 1]), es[|es| - 1];
      SeenCaps(cfg, p, es[..|es| - 1]) + if e.Tick? && !q.sells.closing then [ObserveView(cfg, e.now, q.entry, q.tape).cur] else []
  }

  function SeenProfits(cfg: Config, p: Pos, es: seq<PosEvent>): seq<real> {
    if es == [] then []
    else
      var q, e := PosRun(cfg, p, es[..|es| - 1]), es[|es| - 1];
      SeenProfits(cfg, p, es[..|es| - 1]) + if e.Tick? && !q.sells.closing then [ObserveView(cfg, e.now, q.entry, q.tape).profit] else []
  }

  /** `m` is the largest of a first value and a sequence. */
  predicate IsHigh(m: real, first: real, s: seq<real>) { (m == first || m in s) && first <= m && forall x :: x in s ==> x <= m }

  lemma HighSnoc(m: real, first: real, s: seq<real>, x: real, m': real)
    requires IsHigh(m, first, s) && m' >= m && m' >= x && (m' == m || m' == x)
    ensures IsHigh(m', first, s + [x])
  {
    assert x in s + [x];
    assert m in s ==> m in s + [x];
  }

  lemma TickHigh(cfg: Config, p: Pos, now: nat)
    requires !p.sells.closing
    ensures var t, q := TickStep(cfg, now, p).0.tape, Prepared(cfg, now, p).tape; t.highest == q.highest && t.peak == q.peak
  {
    hide ObserveView, ObserveTape, RefreshLive, KillAfter, TpFor, ExitStage, LockFloor, Prepared;
    var v, q := ObserveView(cfg, now, p.entry, p.tape), Prepared(cfg, now, p);
    ExitStageFlush(cfg, v, TpFor(cfg, q.live), KillAfter(cfg, v, q.entry, q.tape.highest), q);
  }

  lemma StepHigh(cfg: Config, p: Pos, e: PosEvent, high: real, peak: real, caps: seq<real>, profits: seq<real>)
    requires IsHigh(p.tape.highest, high, caps) && IsHigh(p.tape.peak, peak, profits)
    ensures var t, seen := PosStep(cfg, p, e).0.tape, e.Tick? && !p.sells.closing;
            && IsHigh(t.highest, high, caps + if seen then [ObserveView(cfg, e.now, p.entry, p.tape).cur] else [])
            && IsHigh(t.peak, peak, profits + if seen then [ObserveView(cfg, e.now, p.entry, p.tape).profit] else [])
  {
    hide TickStep, ObserveView, Prepared, Touch, IsHigh;
    assert caps + [] == caps && profits + [] == profits;
    if !e.Tick? {
      TouchKeeps(p, e);
    } else if p.sells.closing {
      ClosingTickIsIdle(cfg, p, e.now);
    } else {
      TickHigh(cfg, p, e.now);
      TickSees(cfg, e.now, p);
      var v, t := ObserveView(cfg, e.now, p.entry, p.tape), Prepared(cfg, e.now, p).tape;
      HighSnoc(p.tape.highest, high, caps, v.cur, t.highest);
      HighSnoc(p.tape.peak, peak, profits, v.profit, t.peak);
    }
  }

  /** Over any run the session high is the largest of the value it started with and every filtered market cap
      that a tick of the open position has seen, and the peak profit likewise. */
  lemma {:induction false} SessionHigh(cfg: Config, p: Pos, es: seq<PosEvent>)
    ensures var q := PosRun(cfg, p, es);
            IsHigh(q.tape.highest, p.tape.highest, SeenCaps(cfg, p, es)) && IsHigh(q.tape.peak, p.tape.peak, SeenProfits(cfg, p, es))
  {
    if es != [] {
      hide PosStep, ObserveView, IsHigh;
      var n := |es| - 1;
      SessionHigh(cfg, p, es[..n]);
      StepHigh(cfg, PosRun(cfg, p, es[..n]), es[n], p.tape.highest, p.tape.peak, SeenCaps(cfg, p, es[..n]), SeenProfits(cfg, p, es[..n]));
    }
  }

  // ---- the locked floor ---------------------------------------------------------------------------------

  /** With the staircase on, the checks start with the stored floor, raised to 15, 40, 90 or 180 when the peak
      profit has reached 50, 100, 200 or 400; with it off, or under 50, with the stored floor. */
  lemma Staircase(cfg: Config, now: nat, p: Pos)
    ensures var q := Prepared(cfg, now, p);
            var step := if q.tape.peak < 100.0 then 15.0 else if q.tape.peak < 200.0 then 40.0 else if q.tape.peak < 400.0 then 90.0 else 180.0;
            && q.guard == p.guard.(floor := q.guard.floor)
            && q.guard.floor == if cfg.v4.enabled && cfg.v4.staircase && q.tape.peak >= 50.0 && step > p.guard.floor then step else p.guard.floor
  {
    hide Filtered, NoteSample, PushTick, RawMcap, PnlAt, Velocity, RefreshLive;
  }

  // ---- flush and decay ----------------------------------------------------------------------------------------

  /** The age up to which nothing of the v4 engine acts, by tier; a tier without its own uses the common one. */
  function Grace(c: V4, snap: Option<Snapshot>): nat {
    if snap.Some? && snap.value.tier.TierAPlus? && c.graceSecsAPlus > 0 then c.graceSecsAPlus
    else if snap.Some? && snap.value.tier.TierA? && c.graceSecsA > 0 then c.graceSecsA
    else c.graceSecs
  }

  lemma GraceMeans(cfg: Config, v: View, e: Entry)
    ensures InGrace(cfg, v, e) <==> cfg.v4.enabled && v.held < Grace(cfg.v4, e.snap)
  {
  }

  lemma FlushMeans(cfg: Config, cur: real, highest: real, g: Guard)
    requires highest > 0.0
    ensures var g', deep := FlushStep(cfg, cur, highest, g), highest - cur >= cfg.v4.flushDrop / 100.0 * highest;
            && (g'.flushActive <==> deep || (g.flushActive && cur < 0.99 * highest))
            && g'.flushLow == (if deep && (!g.flushActive || cur < g.flushLow) then cur else g.flushLow)
  {
    DropInPercent(highest, cur, cfg.v4.flushDrop);
  }

  /** The decay block of a tick, in full. It runs out of the tier's grace once a live tape has arrived. A tick is
      bad when buying has slowed under sell pressure, or the position is spent in distribution and not early in
      profit; a flush that recovers well excuses it. Bad ticks in a row are counted, up to 255, any other tick
      starts over, and the exit is queued exactly when the count reaches the configured number, a larger one
      early in profit. A flush opens on a deep enough drop from the high and ends near the high. */
  lemma {:induction false} DecayIff(cfg: Config, now: nat, p: Pos)
    requires !p.sells.closing
    ensures var v, q, (p', o) := ObserveView(cfg, now, p.entry, p.tape), Prepared(cfg, now, p), TickStep(cfg, now, p);
            var c, l, g, g' := cfg.v4, q.live, p.guard, p'.guard;
            var runs := c.enabled && c.decayExit && v.held >= Grace(c, p.entry.snap) && l.hasTape;
            var early := v.held < c.earlyHold && v.profitRaw >= c.earlyMinPct;
            var slows := l.prevBps > 0.01 && l.bps < 0.7 * l.prevBps && v.vel < 0.0 && p.entry.snap.Some? && p.entry.snap.value.sellPressure > 1.2;
            var spent := l.phase.Distribution? && l.score <= c.distributionMax && !early;
            var bad := (slows || spent) && !(g'.flushActive && g'.recovery >= c.recoveryMin);
            var needed := if early then c.decayConfirm + c.earlyExtra else c.decayConfirm;
            && (!runs ==> SameFlush(g, g') && Rank(o) > 0)
            && (runs ==>
                  && g'.decayStreak == (if !bad then 0 else if g.decayStreak < 255 then g.decayStreak + 1 else 255)
                  && (o.Some? && o.value.kind.MomentumDecay? <==> g'.decayStreak >= (if needed == 0 then 1 else if needed > 255 then 255 else needed)))
            && (runs && q.tape.highest > 0.0 ==>
                  var high := q.tape.highest;
                  var deep := high - v.cur >= c.flushDrop / 100.0 * high;
                  && (g'.flushActive <==> deep || (g.flushActive && v.cur < 0.99 * high))
                  && g'.flushLow == (if deep && (!g.flushActive || v.cur < g.flushLow) then v.cur else g.flushLow))
  {
    hide ObserveView, ObserveTape, RefreshLive, LockFloor, KillAfter, TpFor, TickStep, TimeKillDue, Crash, StopDecides, FlushStep, RecoveryScore, LiteMetrics, Grace, InGrace;
    TickRanks(cfg, now, p);
    var v, q := ObserveView(cfg, now, p.entry, p.tape), Prepared(cfg, now, p);
    GraceMeans(cfg, v, p.entry);
    if q.tape.highest > 0.0 { FlushMeans(cfg, v.cur, q.tape.highest, q.guard); }
    FlushKeeps(cfg, v.cur, q.tape.highest, q.guard);
  }

  lemma FlushKeeps(cfg: Config, cur: real, highest: real, g: Guard)
    ensures var f := FlushStep(cfg, cur, highest, g); f == g.(flushActive := f.flushActive, flushLow := f.flushLow)
  {
    hide DrawdownPct;
  }

  // ---- score, phase and profile ----------------------------------------------------------------------------------

  /** Metrics at least as good in every respect. */
  predicate Better(m: Metrics, m': Metrics) {
    && m.buyersPerSec <= m'.buyersPerSec && m.smart <= m'.smart && m.b2s <= m'.b2s && m.holderGrowth <= m'.holderGrowth
    && m.volumeDelta <= m'.volumeDelta && m.liquidityDelta <= m'.liquidityDelta && m.sellPressure >= m'.sellPressure
    && m.smartExits >= m'.smartExits && (m'.momentumDecay ==> m.momentumDecay) && (m'.volumeDecay ==> m.volumeDecay) && (m'.bundle ==> m.bundle)
  }

  /** The live score lies between -14 and 11, and reaches either end exactly when every good sign, or every bad
      one, is there and none of the other kind. */
  lemma LiveScoreMeans(m: Metrics)
    ensures -14 <= LiveScore(m) <= 11
    ensures var good := m.buyersPerSec > 4.0 && m.smart >= 5 && m.b2s > 2.0 && m.holderGrowth > 1.5 && m.volumeDelta > 0.0 && m.liquidityDelta > 0.0;
            var fine := m.sellPressure <= 1.2 && m.smartExits == 0 && !m.momentumDecay && !m.volumeDecay && !m.bundle;
            var poor := m.buyersPerSec <= 4.0 && m.smart < 3 && m.b2s <= 1.5 && m.holderGrowth <= 1.5 && m.volumeDelta <= 0.0 && m.liquidityDelta <= 0.0;
            var bad := m.sellPressure > 1.2 && m.smartExits >= 2 && m.momentumDecay && m.volumeDecay && m.bundle;
            && (LiveScore(m) == 11 <==> good && fine) && (LiveScore(m) == -14 <==> poor && bad)
            && (fine && poor ==> LiveScore(m) == 0)
  {
  }

  /** The recovery score never falls when the metrics improve or the market cap rises; its ends are 9 and -10. */
  lemma RecoveryMeans(m: Metrics, m': Metrics, cur: real, cur': real, low: real, high: real)
    ensures Better(m, m') && cur <= cur' ==> RecoveryScore(m, cur, low, high) <= RecoveryScore(m', cur', low, high)
    ensures -10 <= RecoveryScore(m, cur, low, high) <= 9
    ensures RecoveryScore(m, cur, low, high) == 9 <==>
              && m.buyersPerSec > 2.0 && m.volumeDelta > 0.0 && m.b2s > 1.5 && m.sellPressure <= 1.2 && m.smartExits == 0 && !m.momentumDecay
              && low > 0.0 && cur > 1.05 * low && high > 0.0 && cur >= 0.9 * high
    ensures RecoveryScore(m, cur, low, high) == -10 <==>
              && m.buyersPerSec <= 0.5 && m.volumeDelta <= 0.0 && m.b2s <= 1.5 && m.sellPressure > 1.2 && m.smartExits >= 1 && m.momentumDecay
              && low > 0.0 && cur < low && !(high > 0.0 && cur >= 0.9 * high)
  {
  }

  /** How far along a phase is. */
  function Along(ph: Phase): nat { match ph case Distribution => 0 case Exploration => 1 case Momentum => 2 case Expansion => 3 }

  /** Phases follow the score: a higher score, with no more decay, is never less far along. Decay or a low score
      means distribution, unless the position was there and its score and profit are enough to expand again. */
  lemma PhaseMeans(c: V4, ph: Phase, score: int, score': int, decay: bool, profit: real)
    ensures score <= score' ==> Along(NextPhase(c, ph, score, decay, profit)) <= Along(NextPhase(c, ph, score', decay, profit))
    ensures Along(NextPhase(c, ph, score, true, profit)) <= Along(NextPhase(c, ph, score, false, profit))
    ensures var again := c.reExpansion && ph.Distribution? && score >= c.reExpansionMinScore && profit >= c.reExpansionMinProfit;
            var next := NextPhase(c, ph, score, decay, profit);
            && (next.Distribution? <==> !again && (decay || score <= c.distributionMax))
            && (next.Expansion? <==> again || (!decay && score > c.distributionMax && score >= c.expansionMin))
            && (next.Momentum? <==> !again && !decay && c.distributionMax < score < c.expansionMin && score >= c.momentumMin)
  {
  }

  /** The metrics of a position without a live tape: the velocity stands for volume and liquidity, twelve times it
      for buyers and twenty times it for holders while it is positive; the rest comes from the entry. */
  lemma LiteMeans(cfg: Config, e: Entry, l: Live, vel: real, profit: real)
    ensures var m, s := LiteMetrics(cfg, e, l, vel, profit), e.snap;
            var bonus := if e.tkBuyers >= 35 then 2.5 else 0.0;
            && m.volumeDelta == m.liquidityDelta == vel && m.smart == e.tkSmart && (m.volumeDecay <==> vel < 0.0)
            && (vel > 0.0 ==> m.buyersPerSec == 12.0 * vel + bonus && m.holderGrowth == 20.0 * vel && !m.momentumDecay)
            && (vel <= 0.0 ==> m.buyersPerSec == bonus && m.holderGrowth == 0.0)
            && (s.None? ==> m.sellPressure == 0.0 && m.smartExits == 0 && !m.bundle && !m.momentumDecay && m.b2s == if e.tkB2s > 0.0 then e.tkB2s else 1.0)
            && (s.Some? ==>
                  && m.sellPressure == s.value.sellPressure && m.smartExits == s.value.smartExits
                  && m.b2s == (if e.tkB2s > 0.0 then e.tkB2s else s.value.b2s)
                  && (m.bundle <==> s.value.bundleSimilar > cfg.v4.holdMaxBundle || s.value.bundleIdentical > 0.25)
                  && (m.momentumDecay <==> l.prevVel > 0.01 && vel < 0.7 * l.prevVel && vel < 0.0 && s.value.sellPressure > 1.2))
            && (m.overheated <==> profit >= 120.0 || (if s.Some? then s.value.velocity else 0.0) >= cfg.v4.overheated)
  {
  }

  /** Score, phase and profile are refreshed exactly when the engine is on, the grace is over, enough seconds have
      passed since the last time and no live tape has arrived; nothing else of them changes on a tick. The
      score never goes under the one at entry; the profile changes only to runner, with the hold flag, and
      neither goes back; the samples of a live tape are left alone. */
  lemma {:induction false} RefreshMeans(cfg: Config, now: nat, p: Pos)
    ensures var v, l, l' := ObserveView(cfg, now, p.entry, p.tape), p.live, Prepared(cfg, now, p).live;
            var refreshes := cfg.v4.enabled && v.held >= Grace(cfg.v4, p.entry.snap) && (cfg.v4.refreshSecs == 0 || now >= l.lastAt + cfg.v4.refreshSecs) && !l.hasTape;
            var m := LiteMetrics(cfg, p.entry, l, v.vel, v.profit);
            && (!refreshes ==> l' == l)
            && (refreshes ==>
                  && l'.lastAt == now && l'.prevVel == v.vel && l'.score >= l.scoreFloor && l'.score >= LiveScore(m)
                  && (l'.score == l.scoreFloor || l'.score == LiveScore(m))
                  && l'.phase == NextPhase(cfg.v4, l.phase, l'.score, m.momentumDecay, v.profit)
                  && (l'.profile != l.profile ==> l'.profile.Runner? && l'.hold && !l.hold && (l.profile.Strong? || l.profile.Neutral?))
                  && (l'.profile != l.profile <==>
                        && cfg.v4.runnerUpgrade && !l.hold && (l.profile.Strong? || l.profile.Neutral?)
                        && l'.score >= cfg.v4.runnerMinScore && l'.score >= cfg.v4.holdMinScore && m.smart >= cfg.v4.holdMinSmart
                        && m.b2s > cfg.v4.holdMinB2s && !m.bundle && !m.overheated)
                  && (l.hold ==> l'.hold) && l'.bps == l.bps && l'.prevBps == l.prevBps && l'.hasTape == l.hasTape && l'.scoreFloor == l.scoreFloor)
  {
    hide ObserveTape, Filtered, PnlAt, Velocity, LockFloor, LiteMetrics, LiveScore, NextPhase, InGrace, Grace, RawMcap;
    GraceMeans(cfg, ObserveView(cfg, now, p.entry, p.tape), p.entry);
  }

  // ---- answers and data ------------------------------------------------------------------------------------------

  /** A failed sell changes flags only: a full close, or a partial that needs a manual sell, opens the position
      for ticks again; any other failed partial ends just the wait for it. */
  lemma FailureMeans(p: Pos, pct: real, manual: bool)
    ensures var p' := Touch(p, SellFailed(pct, manual));
            && p' == p.(sells := p'.sells) && p'.sells == p.sells.(closing := p'.sells.closing, pending := false)
            && (p'.sells.closing <==> p.sells.closing && pct < 100.0 && !manual)
  {
  }

  /** Data changes only what it is about: a pool update the pool's market cap, a Jupiter value the switch and that
      value, a live snapshot the live part, whose previous rate is the rate before. */
  lemma DataMeans(p: Pos, e: PosEvent)
    requires e.PoolUpdate? || e.JupiterMcap? || e.LiveSnapshot?
    ensures var p' := Touch(p, e);
            && (e.PoolUpdate? ==> p'.tape.pool == e.mcap && p' == p.(tape := p.tape.(pool := p'.tape.pool)))
            && (e.JupiterMcap? ==> p'.tape.useJupiter && p'.tape.jupiter == Some(e.mcap)
                                   && p'.tape.(useJupiter := p.tape.useJupiter, jupiter := p.tape.jupiter) == p.tape && p' == p.(tape := p'.tape))
            && (e.LiveSnapshot? ==> p' == p.(live := p'.live) && p'.live.hasTape && p'.live.prevBps == p.live.bps && p'.live.bps == e.bps
                                    && p'.live.score == e.score && p'.live.lastAt == e.at && p'.live.phase == e.phase && p'.live.profile == e.profile
                                    && p'.live.hold == e.hold && p'.live.prevVel == e.vel && p'.live.scoreFloor == p.live.scoreFloor)
  {
  }
}
