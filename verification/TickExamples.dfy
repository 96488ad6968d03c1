/**
 Single ticks of a fresh position: one that lowers the effective stop floor, one that lowers only the
 stored field, and one that stops a position in profit.
 */
module TickExamples {

  import opened Common
  import opened ExitFilter
  import opened ExitEngine
  import opened Amounts
  import opened PositionSpec
  import opened PositionProps
  import opened FloorProps
  import Defaults

  /** The default profiles with plain thresholds; a newly opened position is in the exit grace for a minute. */
  const BASE_V4 := V4(
    enabled := true, refreshSecs := 5,
    graceSecs := 60, graceSecsA := 60, graceSecsAPlus := 60,
    earlyHold := 0, earlyMinPct := 0.0, earlyExtra := 0,
    aPlusKillMin := 0, aPlusKillMinPct := 0.0, aKillDefer := 0, aKillDeferPct := 0.0,
    weak := Defaults.WEAK, neutral := Defaults.NEUTRAL, strong := Defaults.STRONG, runner := Defaults.RUNNER,
    holdMinScore := 12, holdMinB2s := 2.0, holdMinSmart := 3, holdMaxBundle := 0.3, overheated := 300.0,
    momentumMin := 6, expansionMin := 11, distributionMax := 2,
    strongKillMin := 8.0, decayExit := true, staircase := false,
    runnerUpgrade := false, runnerMinScore := 12,
    reExpansion := false, reExpansionMinScore := 9, reExpansionMinProfit := 50.0,
    moonbag := false, decayConfirm := 3, flushDrop := 25.0, recoveryMin := 4)

  const BASE_KILL := KillConfig(
    secs := 25, minProfit := 10.0, adaptive := false, weakSecs := 20, strongSecs := 60, neutralSecs := 30,
    strongMinBuyers := 20, strongMinB2s := 2.0, weakMaxBuyers := 5, weakMaxB2s := 1.0,
    velStrong := 1.0, velFlat := 0.1, earlyGreen := 5.0, peakDrawdown := 0.3)

  const BASE := Config(
    v4 := BASE_V4, kill := BASE_KILL, plain := Defaults.NEUTRAL, profitFloor := -40.0,
    slConfirm := 3, slGrace := 10, crashPnl := -50.0, crashDrop := 40.0,
    medianTicks := 1, bandLow := 0.5, bandHigh := 2.0, ceilingSol := 0.0, ceilingPct := 50.0,
    abortEnabled := false, abortMax := 3.0, abortMin := 0.3,
    honest := false, honestMin := 0.5)

  /** The base with a given neutral trailing floor, staircase switch and initial floor. */
  function Setup(trailFloor: real, staircase: bool, initial: real): Config {
    BASE.(v4 := BASE_V4.(neutral := Defaults.NEUTRAL.(trailFloor := trailFloor), staircase := staircase), profitFloor := initial)
  }

  /** Bought at a market cap of 1 SOL, now at 2. */
  const DOUBLED := Opening(1.0, Some(1.0), 2.0, 100, 1.0, None, 0, 0, 0.0, Neutral, false, 1)

  lemma OneSol()
    ensures FromFloatNative(1.0) == 1000000000 && ToFloat(1000000000) == 1.0
  {
    assert 1.0 * SCALE + 0.5 == 1000000000.5;
    assert (1000000000.5).Floor == 1000000000;
  }

  lemma OpenedAt(cfg: Config)
    requires cfg.medianTicks == 1 && cfg.v4.enabled
    ensures var p := Open(cfg, DOUBLED);
            && p.entry.mcapRaw == 1000000000 && p.entry.time == 100 && p.entry.snap == None && p.tape.ticks == [1.0]
            && p.tape.pool == 2.0 && !p.tape.useJupiter && p.tape.highest == 1.0 && p.tape.peak == 0.0 && p.tape.prevRaw == Some(1.0)
            && p.guard == Guard(cfg.profitFloor, false, 0, 0, false, 0.0, 0)
            && p.live.profile == Neutral && p.live.phase == Exploration
            && p.sells == Sells(false, false, false, false, false, false, false, false)
  {
    OneSol();
    hide FromFloatNative, ToFloat;
    assert PushTick([], 1.0, 1) == [1.0] && PushTick([1.0], 1.0, 1) == [1.0];
  }

  /** What the first tick sees: +100%, inside every grace window. */
  lemma FirstTick(cfg: Config)
    requires cfg.medianTicks == 1 && cfg.v4.enabled && cfg.bandLow == 0.5 && cfg.bandHigh == 2.0 && cfg.v4.graceSecs == 60
    ensures var p := Open(cfg, DOUBLED);
            var v, q := ObserveView(cfg, 100, p.entry, p.tape), Prepared(cfg, 100, p);
            && v.profit == 100.0 && v.profitRaw == 100.0 && v.held == 0 && q.tape.peak == 100.0
            && q.live == p.live && q.entry == p.entry && q.sells == p.sells
            && q.guard == p.guard.(floor := LockFloor(cfg, cfg.profitFloor, 100.0))
            && InGrace(cfg, v, q.entry)
  {
    OpenedAt(cfg);
    OneSol();
    hide Open, FromFloatNative, ToFloat, Velocity, NoteSample, StairFloor;
    var p := Open(cfg, DOUBLED);
    assert PushTick([1.0], 2.0, 1) == [2.0];
    FilteredIsSample([2.0], 1.0, 0.5, 2.0);
    hide Filtered;
    Samples(p.tape, 100, 2.0);
    assert PnlAt(p.entry, 2.0) == 100.0;
  }

  lemma Samples(t: Tape, now: nat, mcap: real)
    ensures var n := NoteSample(t, now, mcap); n.ticks == t.ticks && n.highest == t.highest && n.peak == t.peak
  {
  }

  /** Nothing but the trailing activation is due on it. */
  lemma OnlyTrailingIsDue(cfg: Config)
    requires cfg == Setup(cfg.v4.neutral.trailFloor, cfg.v4.staircase, cfg.profitFloor)
    ensures var p := Open(cfg, DOUBLED);
            var v, q := ObserveView(cfg, 100, p.entry, p.tape), Prepared(cfg, 100, p);
            var tp, kill := TpFor(cfg, q.live), KillAfter(cfg, v, q.entry, q.tape.highest);
            WillTrail(cfg, v, tp, kill, q) && tp.trailFloor == cfg.v4.neutral.trailFloor
  {
    OpenedAt(cfg);
    FirstTick(cfg);
    hide Open, ObserveView, Prepared, KillAfter, DecayStep, DecayNeeded, StairFloor;
  }

  /** A trailing floor configured under the initial stop floor: the tick that activates trailing lowers the
      effective floor from -10 to -20. */
  lemma EffectiveFloorCanFall()
    ensures var cfg := Setup(-20.0, false, -10.0);
            var p := Open(cfg, DOUBLED);
            Effective(cfg, p) == -10.0 && Effective(cfg, TickStep(cfg, 100, p).0) < -10.0
  {
    var cfg := Setup(-20.0, false, -10.0);
    OpenedAt(cfg);
    FirstTick(cfg);
    OnlyTrailingIsDue(cfg);
    hide Open, ObserveView, Prepared, KillAfter, WillTrail, TickStep, TpFor;
    EffectiveFloorFallsIff(cfg, 100, Open(cfg, DOUBLED));
  }

  /** With the default neutral profile the stored field falls from the locked 40 to 25 on such a tick, and
      the effective floor stays at 40. */
  lemma StoredFieldCanDip()
    ensures var cfg := Setup(25.0, true, -40.0);
            var p := Open(cfg, DOUBLED);
            var p' := TickStep(cfg, 100, p).0;
            Prepared(cfg, 100, p).guard.floor == 40.0 && p'.guard.floor < 40.0 && Effective(cfg, p') >= 40.0
  {
    var cfg := Setup(25.0, true, -40.0);
    OpenedAt(cfg);
    FirstTick(cfg);
    OnlyTrailingIsDue(cfg);
    assert StairFloor(100.0) == Some(40.0);
    hide Open, ObserveView, Prepared, KillAfter, WillTrail, TickStep, TpFor;
    FloorDropsIff(cfg, 100, Open(cfg, DOUBLED));
  }

  /** With 256 confirm ticks configured and no stop grace, a position at +100%, far above its floor of -40%
      and on its very first tick, is stopped. */
  lemma ProfitableTickStops()
    ensures var cfg := BASE.(slConfirm := 256, slGrace := 0);
            var p := Open(cfg, DOUBLED);
            var v := ObserveView(cfg, 100, p.entry, p.tape);
            && v.profit == 100.0 && Prepared(cfg, 100, p).guard.floor == -40.0
            && TickStep(cfg, 100, p).1 == Some(Order(100.0, StopLoss, false))
  {
    var cfg := BASE.(slConfirm := 256, slGrace := 0);
    OpenedAt(cfg);
    FirstTick(cfg);
    hide Open, ObserveView, Prepared, KillAfter, DecayStep, DecayNeeded, ProfitStage, TpFor;
    assert !StairOn(cfg);
  }
}
