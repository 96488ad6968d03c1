/**
 What one position does (src/autobuy/positions.rs and the per-position loop of
 `process_positions`, src/autobuy/manager.rs): the state, one tick of the exit engine in the
 program's order of checks, the other events that touch a position, and runs of them.
 */
module PositionSpec {

  import opened Common
  import opened ExitFilter
  import opened ExitEngine
  import opened Amounts

  /** Fixed when the position is opened. */
  datatype Entry = Entry(
    mcapRaw: nat, time: nat, initial: nat, spent: real, snap: Option<Snapshot>,
    tkBuyers: nat, tkSmart: nat, tkB2s: real)

  /** Market-cap inputs, the tick buffer, and what is remembered of them. */
  datatype Tape = Tape(
    pool: real, useJupiter: bool, jupiter: Option<real>, ticks: seq<real>,
    highest: real, peak: real, prevRaw: Option<real>,
    tkLastSecs: nat, tkLastMcap: real, tkPrevSecs: nat, tkPrevMcap: real)

  datatype Live = Live(
    profile: Profile, hold: bool, phase: Phase, score: int, prevVel: real,
    bps: real, prevBps: real, lastAt: nat, scoreFloor: int, hasTape: bool)

  /** Stop floor, trailing flag, confirm streaks and flush tracking. */
  datatype Guard = Guard(
    floor: real, trailing: bool, slStreak: nat, decayStreak: nat,
    flushActive: bool, flushLow: real, recovery: int)

  /** What has been triggered, and what is in flight. */
  datatype Sells = Sells(
    tp1: bool, tp2: bool, tp3: bool, tp4: bool, tp5: bool, ceiling: bool,
    closing: bool, pending: bool)

  datatype Pos = Pos(
    entry: Entry, holdings: nat, returned: real, tape: Tape, live: Live, guard: Guard, sells: Sells)

  datatype Kind = MomentumDecay | TimeKill | SlCrash | StopLoss | TrailingExit | CeilingLock | Tp(n: nat)

  /** A sell handed to `schedule_sell`; `urgent` skips the 800 ms delay. */
  datatype Order = Order(pct: real, kind: Kind, urgent: bool)

  predicate FullKind(k: Kind) { !k.CeilingLock? && !k.Tp? }

  // ---- reading the tape ---------------------------------------------------------

  /** `exit_raw_mcap`. */
  function RawMcap(t: Tape): real {
    if t.useJupiter && t.jupiter.Some? && t.jupiter.value > 0.0 then t.jupiter.value else t.pool
  }

  /** `pnl_at_mcap`. */
  function PnlAt(e: Entry, mcap: real): real {
    if e.mcapRaw == 0 then 0.0 else (mcap / ToFloat(e.mcapRaw) - 1.0) * 100.0
  }

  /** `push_exit_mcap_tick`: keep the newest `max` valid ticks. */
  function PushTick(ticks: seq<real>, raw: real, max: nat): seq<real> {
    if !ValidMcap(raw) then ticks
    else
      var longer := ticks + [raw];
      if |longer| > max then longer[|longer| - max..] else longer
  }

  /** `time_kill_note_mcap_sample`. */
  function NoteSample(t: Tape, now: nat, mcap: real): Tape {
    if t.tkLastSecs == 0 then
      t.(tkLastSecs := now, tkLastMcap := mcap, tkPrevSecs := now, tkPrevMcap := mcap)
    else if now == t.tkLastSecs then t.(tkLastMcap := mcap)
    else t.(tkPrevSecs := t.tkLastSecs, tkPrevMcap := t.tkLastMcap, tkLastSecs := now, tkLastMcap := mcap)
  }

  /** `time_kill_mcap_velocity_pct_per_sec`. */
  function Velocity(t: Tape, enter: real): real {
    if enter <= 0.0 then 0.0
    else (t.tkLastMcap - t.tkPrevMcap) / enter * 100.0 / (MaxN(SatSub(t.tkLastSecs, t.tkPrevSecs), 1) as real)
  }

  /** The numbers one tick works with. */
  datatype View = View(now: nat, held: nat, raw: real, cur: real, profit: real, profitRaw: real, drop: Option<real>, vel: real)

  /** The first part of a tick: push the raw tick, filter, raise the high and the peak. */
  function ObserveTape(cfg: Config, now: nat, e: Entry, t: Tape): Tape {
    var raw := RawMcap(t);
    var ticks := PushTick(t.ticks, raw, cfg.medianTicks);
    var cur := Filtered(ticks, ToFloat(e.mcapRaw), cfg.bandLow, cfg.bandHigh);
    NoteSample(t, now, cur).(
      ticks := ticks, highest := MaxR(t.highest, cur), peak := MaxR(t.peak, PnlAt(e, cur)), prevRaw := Some(raw))
  }

  function ObserveView(cfg: Config, now: nat, e: Entry, t: Tape): View {
    var raw := RawMcap(t);
    var t' := ObserveTape(cfg, now, e, t);
    var cur := Filtered(t'.ticks, ToFloat(e.mcapRaw), cfg.bandLow, cfg.bandHigh);
    View(now, SatSub(now, e.time), raw, cur, PnlAt(e, cur), PnlAt(e, raw),
         if t.prevRaw.Some? then TickDrop(t.prevRaw.value, raw) else None,
         Velocity(t', ToFloat(e.mcapRaw)))
  }

  // ---- the stages of a tick ------------------------------------------------------

  /** `live_metrics_lite`. */
  function LiteMetrics(cfg: Config, e: Entry, l: Live, vel: real, profit: real): Metrics {
    var s := e.snap;
    var pressure := if s.Some? then s.value.sellPressure else 0.0;
    Metrics(
      MaxR(vel * 12.0, 0.0) + (if e.tkBuyers >= 35 then 2.5 else 0.0), e.tkSmart,
      if e.tkB2s > 0.0 then e.tkB2s else if s.Some? then s.value.b2s else 1.0,
      MaxR(vel, 0.0) * 20.0, vel, vel, pressure, if s.Some? then s.value.smartExits else 0,
      MomentumDecayed(vel, l.prevVel, pressure, vel), vel < 0.0,
      s.Some? && (s.value.bundleSimilar > cfg.v4.holdMaxBundle || s.value.bundleIdentical > 0.25),
      (if s.Some? then s.value.velocity else 0.0) >= cfg.v4.overheated || profit >= 120.0)
  }

  predicate InGrace(cfg: Config, v: View, e: Entry) {
    cfg.v4.enabled && v.held < GraceSecs(cfg.v4, TierOf(e.snap))
  }

  /** Refresh of score, phase and profile while no live tape has arrived. */
  function RefreshLive(cfg: Config, v: View, e: Entry, l: Live): Live {
    if cfg.v4.enabled && !InGrace(cfg, v, e) && SatSub(v.now, l.lastAt) >= cfg.v4.refreshSecs && !l.hasTape then
      var m := LiteMetrics(cfg, e, l, v.vel, v.profit);
      var score := MaxI(LiveScore(m), l.scoreFloor);
      var up := UpgradesToRunner(cfg.v4, l.profile, m, score, l.hold);
      l.(score := score, prevVel := v.vel, lastAt := v.now,
         phase := NextPhase(cfg.v4, l.phase, score, m.momentumDecay, v.profit),
         profile := if up then Runner else l.profile, hold := if up then true else l.hold)
    else l
  }

  predicate StairOn(cfg: Config) { cfg.v4.enabled && cfg.v4.staircase }

  /** The stop floor raised to the profit-lock staircase of the peak. */
  function LockFloor(cfg: Config, floor: real, peak: real): real {
    if StairOn(cfg) && StairFloor(peak).Some? then MaxR(floor, StairFloor(peak).value) else floor
  }

  function TpFor(cfg: Config, l: Live): TpProfile {
    if cfg.v4.enabled then ApplyPhase(ProfileParams(cfg.v4, l.profile), l.phase)
    else cfg.plain.(trailActivate := 80.0, trailFloor := 35.0, smartActivate := 50.0, smartFloor := 5.0)
  }

  /** `time_kill_window_profile` and the two floors on its result. */
  function KillAfter(cfg: Config, v: View, e: Entry, highest: real): nat {
    var k := cfg.kill;
    var base :=
      if !k.adaptive then k.secs
      else
        var dd := if highest > 0.0 then (highest - v.cur) / highest else 0.0;
        var strong :=
          (if e.tkSmart >= 1 then 1 else 0) + (if e.tkBuyers >= k.strongMinBuyers then 1 else 0)
          + (if e.tkB2s >= k.strongMinB2s then 1 else 0)
          + (if v.held >= 6 && v.vel >= k.velStrong then 1 else 0)
          + (if v.profit >= k.earlyGreen then 1 else 0);
        var weak :=
          (if e.tkSmart == 0 then 1 else 0) + (if 0 < e.tkBuyers < k.weakMaxBuyers then 1 else 0)
          + (if 0.0 < e.tkB2s < k.weakMaxB2s then 1 else 0)
          + (if v.held >= 8 && Abs(v.vel) <= k.velFlat then 1 else 0)
          + (if dd >= k.peakDrawdown && v.profit < k.minProfit then 1 else 0);
        if strong >= 4 && weak <= 1 then ClampN(k.strongSecs, 45, 80)
        else if weak >= 3 && strong <= 1 then ClampN(k.weakSecs, 18, 28)
        else ClampN(k.neutralSecs, 20, 45);
    if !cfg.v4.enabled then base
    else
      var forAPlus := if TierOf(e.snap).TierAPlus? then MaxN(base, cfg.v4.aPlusKillMin) else base;
      MaxN(forAPlus, KillDeferFloor(cfg.v4, e.snap, v.profitRaw))
  }

  /** Drop from the session high, in percent. */
  function DrawdownPct(highest: real, cur: real): real {
    if highest > 0.0 then (highest - cur) / highest * 100.0 else 0.0
  }

  /** The decay block runs on this tick. */
  predicate DecayEvaluated(cfg: Config, v: View, e: Entry, l: Live) {
    cfg.v4.enabled && cfg.v4.decayExit && !InGrace(cfg, v, e) && l.hasTape
  }

  predicate EarlyGreen(cfg: Config, v: View) {
    v.held < cfg.v4.earlyHold && v.profitRaw >= cfg.v4.earlyMinPct
  }

  /** The tape looks exhausted on this tick. */
  predicate DecayNow(cfg: Config, v: View, e: Entry, l: Live) {
    var byVelocity := MomentumDecayed(l.bps, l.prevBps, if e.snap.Some? then e.snap.value.sellPressure else 0.0, v.vel);
    var byDistribution := l.phase.Distribution? && l.score <= cfg.v4.distributionMax;
    byVelocity || (byDistribution && !EarlyGreen(cfg, v))
  }

  /** Flush window bookkeeping: opens on a deep drop, follows the low, resolves near the high. */
  function FlushStep(cfg: Config, cur: real, highest: real, g: Guard): Guard {
    if DrawdownPct(highest, cur) >= cfg.v4.flushDrop then
      if !g.flushActive then g.(flushActive := true, flushLow := cur)
      else if cur < g.flushLow then g.(flushLow := cur)
      else g
    else if cur >= highest * 0.99 then g.(flushActive := false)
    else g
  }

  /** A qualifying tick of deterioration: decaying, and not in a healthy recovery. */
  predicate DecayBad(cfg: Config, v: View, e: Entry, l: Live, g: Guard) {
    DecayNow(cfg, v, e, l) && !(g.flushActive && g.recovery >= cfg.v4.recoveryMin)
  }

  function WithRecovery(cfg: Config, v: View, e: Entry, t: Tape, l: Live, g: Guard): Guard {
    var f := FlushStep(cfg, v.cur, t.highest, g);
    f.(recovery := RecoveryScore(LiteMetrics(cfg, e, l, v.vel, v.profit), v.cur, f.flushLow, t.highest))
  }

  /** The guard after the decay block. */
  function DecayStep(cfg: Config, v: View, e: Entry, t: Tape, l: Live, g: Guard): Guard {
    if !DecayEvaluated(cfg, v, e, l) then g
    else
      var r := WithRecovery(cfg, v, e, t, l, g);
      r.(decayStreak := if DecayBad(cfg, v, e, l, r) then SatAdd8(r.decayStreak, 1) else 0)
  }

  function DecayNeeded(cfg: Config, v: View): nat {
    MaxN(if EarlyGreen(cfg, v) then SatAdd8(cfg.v4.decayConfirm, cfg.v4.earlyExtra) else cfg.v4.decayConfirm, 1)
  }

  predicate TimeKillDue(cfg: Config, v: View, p: Pos, killAfter: nat) {
    var e := p.entry;
    var afterTp := cfg.v4.enabled && (p.live.profile.Strong? || p.live.profile.Runner?)
                   && (p.sells.tp1 || p.sells.tp2) && v.profit >= cfg.v4.strongKillMin;
    var aPlus := cfg.v4.enabled && TierOf(e.snap).TierAPlus?
                 && (v.held < cfg.v4.aPlusKillMin || v.profitRaw >= cfg.v4.aPlusKillMinPct);
    !afterTp && !aPlus && v.now >= e.time + killAfter && v.profit < cfg.kill.minProfit
  }

  /** `sl_trigger_pnl_pct`: the worse of filtered and raw PnL. */
  function SlProfit(v: View): real { MinR(v.profit, v.profitRaw) }

  predicate SlGrace(cfg: Config, v: View) { v.held < cfg.slGrace }

  predicate Crash(cfg: Config, v: View) {
    CrashTriggered(SlProfit(v), v.profitRaw, v.drop, cfg.crashPnl, cfg.crashDrop, SlGrace(cfg, v))
  }

  /** This tick counts against the stop floor. */
  predicate SlBad(cfg: Config, v: View, floor: real) { !SlGrace(cfg, v) && SlProfit(v) <= floor }

  function SlCount(bad: bool, streak: nat): nat {
    if bad then (if streak + 1 > U8_MAX then U8_MAX else streak + 1) else 0
  }

  /** `sl_confirm_ticks.max(1) as u8`: the cast keeps only the low eight bits. */
  function SlNeeded(cfg: Config): nat { MaxN(cfg.slConfirm, 1) % 256 }

  predicate CeilingDue(cfg: Config, v: View, s: Sells) {
    cfg.ceilingSol > 0.0 && v.cur >= cfg.ceilingSol && !s.ceiling && !s.pending
  }

  function CeilingPct(cfg: Config): real { MinR(MaxR(cfg.ceilingPct, 1.0), 99.0) }

  function CeilingGuard(tp: TpProfile, g: Guard): Guard {
    if g.trailing then g else g.(trailing := true, floor := MaxR(g.floor, tp.trailFloor))
  }

  function TrailPct(cfg: Config, v: View, l: Live, tp: TpProfile): real {
    if cfg.v4.enabled then AdaptiveTrailing(l.profile, l.score, v.profit) else tp.drawdown
  }

  predicate TrailingDue(v: View, trail: real, t: Tape, g: Guard) {
    g.trailing && v.cur <= t.highest * (1.0 - trail / 100.0)
  }

  /** Trailing activation assigns the floor; smart stop only raises it. */
  function UpgradeGuard(tp: TpProfile, profit: real, g: Guard): Guard {
    if profit >= tp.trailActivate then
      if g.trailing then g else g.(trailing := true, floor := tp.trailFloor)
    else if profit >= tp.smartActivate && g.floor < tp.smartFloor then g.(floor := tp.smartFloor)
    else g
  }

  function TpPct(tp: TpProfile, n: nat): real
    requires 1 <= n <= 5
  {
    match n case 1 => tp.tp1Pct case 2 => tp.tp2Pct case 3 => tp.tp3Pct case 4 => tp.tp4Pct case _ => tp.tp5Pct
  }

  function TpHit(s: Sells, n: nat): bool
    requires 1 <= n <= 5
  {
    match n case 1 => s.tp1 case 2 => s.tp2 case 3 => s.tp3 case 4 => s.tp4 case _ => s.tp5
  }

  function MarkTp(s: Sells, n: nat): Sells
    requires 1 <= n <= 5
  {
    match n
    case 1 => s.(tp1 := true, pending := true)
    case 2 => s.(tp2 := true, pending := true)
    case 3 => s.(tp3 := true, pending := true)
    case 4 => s.(tp4 := true, pending := true)
    case _ => s.(tp5 := true, pending := true)
  }

  /** The first take-profit that is reached and not yet triggered; 0 when there is none. */
  function NextTp(tp: TpProfile, profit: real, s: Sells): (n: nat)
    ensures n <= 5
  {
    if profit >= tp.tp1Pct && !s.tp1 then 1
    else if profit >= tp.tp2Pct && !s.tp2 then 2
    else if profit >= tp.tp3Pct && !s.tp3 then 3
    else if profit >= tp.tp4Pct && !s.tp4 then 4
    else if profit >= tp.tp5Pct && !s.tp5 then 5
    else 0
  }

  function TpSell(cfg: Config, tp: TpProfile, l: Live, n: nat): real
    requires 1 <= n <= 5
  {
    var base := match n case 1 => tp.tp1Sell case 2 => tp.tp2Sell case 3 => tp.tp3Sell case 4 => tp.tp4Sell case _ => tp.tp5Sell;
    if n >= 3 && cfg.v4.enabled && cfg.v4.moonbag then MoonbagSell(base, l.score, l.phase) else base
  }

  // ---- one tick -------------------------------------------------------------------

  function Close(p: Pos, kind: Kind): (Pos, Option<Order>) {
    (p.(sells := p.sells.(closing := true)), Some(Order(100.0, kind, kind.SlCrash?)))
  }

  /** Partial sells: one in flight at a time, take-profits in order. */
  function PartialStage(cfg: Config, v: View, tp: TpProfile, p: Pos): (Pos, Option<Order>) {
    var n := NextTp(tp, v.profit, p.sells);
    if p.sells.pending || n == 0 then (p, None)
    else (p.(sells := MarkTp(p.sells, n)), Some(Order(TpSell(cfg, tp, p.live, n), Tp(n), false)))
  }

  /** Ceiling lock, trailing stop, protection upgrades, then partials. */
  function ProfitStage(cfg: Config, v: View, tp: TpProfile, p: Pos): (Pos, Option<Order>) {
    if CeilingDue(cfg, v, p.sells) then
      (p.(sells := p.sells.(ceiling := true, pending := true),
          tape := p.tape.(useJupiter := true), guard := CeilingGuard(tp, p.guard)),
       Some(Order(CeilingPct(cfg), CeilingLock, false)))
    else if TrailingDue(v, TrailPct(cfg, v, p.live, tp), p.tape, p.guard) then Close(p, TrailingExit)
    else PartialStage(cfg, v, tp, p.(guard := UpgradeGuard(tp, v.profit, p.guard)))
  }

  /** The streak of below-floor ticks, then either the stop or the profit checks. */
  function StopStage(cfg: Config, v: View, tp: TpProfile, p: Pos): (Pos, Option<Order>) {
    var p' := p.(guard := p.guard.(slStreak := SlCount(SlBad(cfg, v, p.guard.floor), p.guard.slStreak)));
    if !SlGrace(cfg, v) && p'.guard.slStreak >= SlNeeded(cfg) then Close(p', StopLoss)
    else ProfitStage(cfg, v, tp, p')
  }

  /** Decay exit, time kill, crash, then the stop stage. */
  function ExitStage(cfg: Config, v: View, tp: TpProfile, killAfter: nat, p: Pos): (Pos, Option<Order>) {
    var p' := p.(guard := DecayStep(cfg, v, p.entry, p.tape, p.live, p.guard));
    if DecayEvaluated(cfg, v, p.entry, p.live) && p'.guard.decayStreak >= DecayNeeded(cfg, v) then Close(p', MomentumDecay)
    else if TimeKillDue(cfg, v, p', killAfter) then Close(p', TimeKill)
    else if Crash(cfg, v) then Close(p', SlCrash)
    else StopStage(cfg, v, tp, p')
  }

  /** The position as the exit checks of a tick see it: tape observed, score refreshed, floor locked. */
  function Prepared(cfg: Config, now: nat, p: Pos): Pos {
    var v := ObserveView(cfg, now, p.entry, p.tape);
    var t := ObserveTape(cfg, now, p.entry, p.tape);
    p.(tape := t, live := RefreshLive(cfg, v, p.entry, p.live),
       guard := p.guard.(floor := LockFloor(cfg, p.guard.floor, t.peak)))
  }

  /** One position's share of `process_positions`. */
  function TickStep(cfg: Config, now: nat, p: Pos): (Pos, Option<Order>) {
    if p.sells.closing then (p, None)
    else
      var v := ObserveView(cfg, now, p.entry, p.tape);
      var q := Prepared(cfg, now, p);
      ExitStage(cfg, v, TpFor(cfg, q.live), KillAfter(cfg, v, q.entry, q.tape.highest), q)
  }

  // ---- the other events -------------------------------------------------------------

  /** Everything that can happen to an open position. `LiveSnapshot` carries the values computed
      from the token bucket, which is not part of this model. */
  datatype PosEvent =
    | Tick(now: nat)
    | PoolUpdate(mcap: real)
    | JupiterMcap(mcap: real)
    | LiveSnapshot(at: nat, score: int, phase: Phase, profile: Profile, hold: bool, bps: real, vel: real)
    | SellFailed(pct: real, manual: bool)
    | PartialSold(pct: real, received: real)

  /** Tokens asked of the broker: `holdings * (percent / 100)`. */
  function SellQty(holdings: nat, pct: real): real { ToFloat(holdings) * (pct / 100.0) }

  function AfterFailure(pct: real, manual: bool, s: Sells): Sells {
    if manual || pct >= 100.0 then s.(closing := false, pending := false) else s.(pending := false)
  }

  function AfterPartial(pct: real, received: real, p: Pos): Pos {
    p.(returned := p.returned + received,
       holdings := FromFloatNative(ToFloat(p.holdings) - SellQty(p.holdings, pct)),
       sells := p.sells.(pending := false))
  }

  /** Events other than ticks. */
  function Touch(p: Pos, e: PosEvent): Pos
    requires !e.Tick?
  {
    match e
    case PoolUpdate(m) => p.(tape := p.tape.(pool := m))
    case JupiterMcap(m) => p.(tape := p.tape.(useJupiter := true, jupiter := Some(m)))
    case LiveSnapshot(at, score, phase, profile, hold, bps, vel) =>
      p.(live := p.live.(hasTape := true, prevBps := p.live.bps, bps := bps, prevVel := vel, score := score,
                         lastAt := at, phase := phase, profile := profile, hold := hold))
    case SellFailed(pct, manual) => p.(sells := AfterFailure(pct, manual, p.sells))
    case PartialSold(pct, received) => AfterPartial(pct, received, p)
  }

  function PosStep(cfg: Config, p: Pos, e: PosEvent): (Pos, Option<Order>) {
    if e.Tick? then TickStep(cfg, e.now, p) else (Touch(p, e), None)
  }

  /** What `apply_buy_result` puts into a fresh position. */
  datatype Opening = Opening(
    tokens: real, mcapFill: Option<real>, pool: real, now: nat, spent: real, snap: Option<Snapshot>,
    tkBuyers: nat, tkSmart: nat, tkB2s: real, profile: Profile, hold: bool, scoreFloor: int)

  function Open(cfg: Config, o: Opening): Pos {
    var fill := if o.mcapFill.Some? && o.mcapFill.value > 0.0 then o.mcapFill else None;
    var enter := if fill.Some? then FromFloatNative(fill.value) else FromFloatNative(o.pool);
    var first := if fill.Some? then PushTick([], fill.value, cfg.medianTicks) else [];
    Pos(Entry(enter, o.now, FromFloatNative(o.tokens), o.spent, o.snap, o.tkBuyers, o.tkSmart, o.tkB2s),
        FromFloatNative(o.tokens), 0.0,
        Tape(o.pool, false, None, PushTick(first, ToFloat(enter), cfg.medianTicks), ToFloat(enter), 0.0, fill, 0, 0.0, 0, 0.0),
        if cfg.v4.enabled then Live(o.profile, o.hold, Exploration, o.scoreFloor, 0.0, 0.0, 0.0, o.now, o.scoreFloor, false)
        else Live(o.profile, o.hold, Exploration, 0, 0.0, 0.0, 0.0, 0, 1, false),
        Guard(cfg.profitFloor, false, 0, 0, false, 0.0, 0),
        Sells(false, false, false, false, false, false, false, false))
  }

  // ---- runs ---------------------------------------------------------------------------

  /** The state after the events, oldest first. */
  function PosRun(cfg: Config, p: Pos, es: seq<PosEvent>): Pos {
    if es == [] then p else PosStep(cfg, PosRun(cfg, p, es[..|es| - 1]), es[|es| - 1]).0
  }

  /** The orders queued along the way. */
  function Orders(cfg: Config, p: Pos, es: seq<PosEvent>): seq<Order> {
    if es == [] then []
    else
      var o := PosStep(cfg, PosRun(cfg, p, es[..|es| - 1]), es[|es| - 1]).1;
      Orders(cfg, p, es[..|es| - 1]) + if o.Some? then [o.value] else []
  }
}
