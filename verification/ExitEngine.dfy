/**
 Configuration and decision rules of the exit engine (src/autobuy/exit_engine.rs and the
 `SmartBuyConfig` of src/autobuy/manager.rs). Percentages, scores and mcaps are reals or ints;
 u8 counters saturate at 255 as in the program.
 */
module ExitEngine {

  import opened Common
  import opened ExitFilter

  const U8_MAX: nat := 255

  type u8 = n: nat | n <= U8_MAX

  datatype Profile = Weak | Neutral | Strong | Runner
  datatype Phase = Exploration | Momentum | Expansion | Distribution
  datatype Tier = OtherTier | TierA | TierAPlus

  datatype TpProfile = TpProfile(
    tp1Pct: real, tp1Sell: real, tp2Pct: real, tp2Sell: real, tp3Pct: real, tp3Sell: real,
    tp4Pct: real, tp4Sell: real, tp5Pct: real, tp5Sell: real,
    drawdown: real, trailActivate: real, trailFloor: real, smartActivate: real, smartFloor: real)

  datatype V4 = V4(
    enabled: bool, refreshSecs: nat,
    graceSecs: nat, graceSecsA: nat, graceSecsAPlus: nat,
    earlyHold: nat, earlyMinPct: real, earlyExtra: u8,
    aPlusKillMin: nat, aPlusKillMinPct: real, aKillDefer: nat, aKillDeferPct: real,
    weak: TpProfile, neutral: TpProfile, strong: TpProfile, runner: TpProfile,
    holdMinScore: int, holdMinB2s: real, holdMinSmart: nat, holdMaxBundle: real, overheated: real,
    momentumMin: int, expansionMin: int, distributionMax: int,
    strongKillMin: real, decayExit: bool, staircase: bool,
    runnerUpgrade: bool, runnerMinScore: int,
    reExpansion: bool, reExpansionMinScore: int, reExpansionMinProfit: real,
    moonbag: bool, decayConfirm: u8, flushDrop: real, recoveryMin: int)

  datatype KillConfig = KillConfig(
    secs: nat, minProfit: real, adaptive: bool, weakSecs: nat, strongSecs: nat, neutralSecs: nat,
    strongMinBuyers: nat, strongMinB2s: real, weakMaxBuyers: nat, weakMaxB2s: real,
    velStrong: real, velFlat: real, earlyGreen: real, peakDrawdown: real)

  datatype Config = Config(
    v4: V4, kill: KillConfig, plain: TpProfile, profitFloor: real,
    slConfirm: nat, slGrace: nat, crashPnl: real, crashDrop: real,
    medianTicks: nat, bandLow: real, bandHigh: real, ceilingSol: real, ceilingPct: real,
    abortEnabled: bool, abortMax: real, abortMin: real,
    honest: bool, honestMin: real)

  /** The scoring-time snapshot fields that exits read (`LearningTradeSnapshot`). */
  datatype Snapshot = Snapshot(
    mcap: real, buyers: nat, smart: nat, velocity: real, bundleSimilar: real, bundleIdentical: real,
    b2s: real, scoreTotal: int, tier: Tier, sellPressure: real, smartExits: nat, momentumGood: bool)

  function MaxR(a: real, b: real): real { if a < b then b else a }
  function MinR(a: real, b: real): real { if a < b then a else b }
  function MaxI(a: int, b: int): int { if a < b then b else a }
  function ClampN(x: nat, lo: nat, hi: nat): nat { if x < lo then lo else if x > hi then hi else x }
  function SatAdd8(a: nat, b: nat): nat { if a + b > U8_MAX then U8_MAX else a + b }

  function TierOf(snap: Option<Snapshot>): Tier { if snap.Some? then snap.value.tier else OtherTier }

  /** `entry_live_score_floor`. */
  function ScoreFloor(snap: Option<Snapshot>): int {
    if snap.Some? then MaxI(snap.value.scoreTotal / 2, 1) else 1
  }

  function GraceSecs(c: V4, tier: Tier): nat {
    match tier
    case TierAPlus => if c.graceSecsAPlus > 0 then c.graceSecsAPlus else c.graceSecs
    case TierA => if c.graceSecsA > 0 then c.graceSecsA else c.graceSecs
    case OtherTier => c.graceSecs
  }

  /** `tier_a_time_kill_defer_floor_secs`. */
  function KillDeferFloor(c: V4, snap: Option<Snapshot>, mcapPnl: real): nat {
    if c.aKillDefer > 0 && snap.Some? && snap.value.tier == TierA && snap.value.momentumGood
       && mcapPnl > c.aKillDeferPct then c.aKillDefer else 0
  }

  /** `sl_raw_tick_drop_pct`. */
  function TickDrop(prev: real, raw: real): Option<real> {
    if ValidMcap(prev) && ValidMcap(raw) then Some((prev - raw) / prev * 100.0) else None
  }

  /** `sl_crash_triggered`. */
  predicate CrashTriggered(trigger: real, rawPnl: real, drop: Option<real>, crashPnl: real, crashDrop: real, inGrace: bool) {
    trigger <= crashPnl || (!inGrace && drop.Some? && drop.value >= crashDrop && rawPnl < 0.0)
  }

  /** `profit_lock_staircase_floor`. */
  function StairFloor(peak: real): Option<real> {
    if peak >= 400.0 then Some(180.0)
    else if peak >= 200.0 then Some(90.0)
    else if peak >= 100.0 then Some(40.0)
    else if peak >= 50.0 then Some(15.0)
    else None
  }

  function ProfileParams(c: V4, p: Profile): TpProfile {
    match p case Weak => c.weak case Neutral => c.neutral case Strong => c.strong case Runner => c.runner
  }

  /** `apply_phase_to_tp`. */
  function ApplyPhase(t: TpProfile, ph: Phase): TpProfile {
    match ph
    case Exploration => t
    case Momentum => t.(trailActivate := t.trailActivate * 1.05)
    case Expansion =>
      t.(drawdown := MinR(t.drawdown * 1.12, 45.0), tp3Sell := t.tp3Sell * 0.85,
         tp4Sell := t.tp4Sell * 0.85, tp5Sell := t.tp5Sell * 0.85)
    case Distribution =>
      t.(tp1Sell := MinR(t.tp1Sell * 1.2, 55.0), tp2Sell := MinR(t.tp2Sell * 1.15, 50.0),
         trailActivate := t.trailActivate * 0.85)
  }

  /** `adaptive_moonbag_sell_pct`. */
  function MoonbagSell(base: real, score: int, ph: Phase): real {
    if !ph.Expansion? && !ph.Momentum? then base
    else if score >= 12 then base * 0.5
    else if score >= 9 then base * 0.75
    else base
  }

  /** `adaptive_trailing`. */
  function AdaptiveTrailing(p: Profile, score: int, profit: real): real {
    var floor := match p case Weak => 14.0 case Neutral => 18.0 case Strong => 22.0 case Runner => 38.0;
    var doc := if score >= 15 then 40.0 else if score >= 11 then 24.0 else if profit > 50.0 then 18.0 else 14.0;
    MinR(MaxR(doc, floor), 45.0)
  }

  // ---- live metrics without a token bucket -------------------------------------

  datatype Metrics = Metrics(
    buyersPerSec: real, smart: nat, b2s: real, holderGrowth: real, volumeDelta: real,
    liquidityDelta: real, sellPressure: real, smartExits: nat,
    momentumDecay: bool, volumeDecay: bool, bundle: bool, overheated: bool)

  /** `momentum_decay_detected`. */
  predicate MomentumDecayed(velNow: real, velPrev: real, sellPressure: real, volumeDelta: real) {
    velPrev > 0.01 && velNow < velPrev * 0.7 && sellPressure > 1.2 && volumeDelta < 0.0
  }

  /** `calculate_live_score`. */
  function LiveScore(m: Metrics): int {
    (if m.buyersPerSec > 4.0 then 2 else 0)
    + (if m.smart >= 5 then 3 else if m.smart >= 3 then 2 else 0)
    + (if m.b2s > 2.0 then 2 else if m.b2s > 1.5 then 1 else 0)
    + (if m.holderGrowth > 1.5 then 2 else 0)
    + (if m.volumeDelta > 0.0 then 1 else 0)
    + (if m.liquidityDelta > 0.0 then 1 else 0)
    - (if m.sellPressure > 1.2 then 2 else 0)
    - (if m.smartExits >= 2 then 3 else if m.smartExits >= 1 then 1 else 0)
    - (if m.momentumDecay then 4 else 0)
    - (if m.volumeDecay then 2 else 0)
    - (if m.bundle then 3 else 0)
  }

  /** `recovery_score`. */
  function RecoveryScore(m: Metrics, cur: real, low: real, high: real): int {
    (if m.buyersPerSec > 2.0 then 2 else if m.buyersPerSec <= 0.5 then -2 else 0)
    + (if m.volumeDelta > 0.0 then 2 else -1)
    + (if m.b2s > 1.5 then 1 else 0)
    - (if m.sellPressure > 1.2 then 2 else 0)
    - (if m.smartExits >= 1 then 1 else 0)
    + (if low > 0.0 then (if cur > low * 1.05 then 2 else if cur < low then -2 else 0) else 0)
    + (if high > 0.0 && cur >= high * 0.9 then 2 else 0)
    - (if m.momentumDecay then 2 else 0)
  }

  /** `transition_position_phase`. */
  function NextPhase(c: V4, ph: Phase, score: int, decay: bool, profit: real): Phase {
    if c.reExpansion && ph.Distribution? && score >= c.reExpansionMinScore && profit >= c.reExpansionMinProfit
    then Expansion
    else if decay || score <= c.distributionMax then Distribution
    else if score >= c.expansionMin then Expansion
    else if score >= c.momentumMin then Momentum
    else Exploration
  }

  /** `should_enable_hold_mode`. */
  predicate HoldMode(c: V4, m: Metrics, score: int) {
    score >= c.holdMinScore && m.smart >= c.holdMinSmart && m.b2s > c.holdMinB2s && !m.bundle && !m.overheated
  }

  /** `maybe_upgrade_runner`. */
  predicate UpgradesToRunner(c: V4, p: Profile, m: Metrics, score: int, hold: bool) {
    c.runnerUpgrade && !hold && score >= c.runnerMinScore && HoldMode(c, m, score) && (p.Strong? || p.Neutral?)
  }
}
