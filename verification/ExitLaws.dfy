/**
 When each exit fires, in numbers. `PositionSpec` writes the tick the way the program does; here every
 decision of a tick is stated from outside, on what the tick saw, in the order of the checks: given that no
 earlier check queued its order, this one did exactly under the written-out condition.
 */
module ExitLaws {

  import opened Common
  import opened ExitFilter
  import opened ExitEngine
  import opened Amounts
  import opened PositionSpec
  import opened PositionProps
  import opened FloorProps
  import opened PartialProps

  /** The place of an order among the checks of a tick; 7 without an order. */
  function Rank(o: Option<Order>): nat {
    if o.None? then 7
    else
      match o.value.kind
      case MomentumDecay => 0
      case TimeKill => 1
      case SlCrash => 2
      case StopLoss => 3
      case CeilingLock => 4
      case TrailingExit => 5
      case Tp(_) => 6
  }

  // ---- the order of the checks ---------------------------------------------------------------------

  predicate SameFloor(g: Guard, g': Guard) { g'.trailing == g.trailing && g'.floor == g.floor }

  /** A full close: 100%, the flag, and nothing else of what later checks use. */
  predicate Closed(p: Pos, p': Pos, o: Option<Order>) {
    o.Some? && o.value.pct == 100.0 && o.value.urgent == o.value.kind.SlCrash? && FullKind(o.value.kind)
    && p'.sells == p.sells.(closing := true) && p'.tape == p.tape && SameFloor(p.guard, p'.guard)
  }

  /** What the profit checks do, by the rules they are written with. */
  predicate ProfitDecides(cfg: Config, v: View, tp: TpProfile, p: Pos, p': Pos, o: Option<Order>) {
    var n := NextTp(tp, v.profit, p.sells);
    && Rank(o) >= 4 && p'.entry == p.entry && p'.live == p.live && p'.holdings == p.holdings && p'.returned == p.returned
    && (Rank(o) == 4 <==> CeilingDue(cfg, v, p.sells))
    && (Rank(o) >= 5 ==> (Rank(o) == 5 <==> TrailingDue(v, TrailPct(cfg, v, p.live, tp), p.tape, p.guard)))
    && (Rank(o) >= 6 ==> (Rank(o) == 6 <==> !p.sells.pending && n > 0))
    && (Rank(o) == 4 ==>
          o == Some(Order(CeilingPct(cfg), CeilingLock, false)) && p'.sells == p.sells.(ceiling := true, pending := true)
          && p'.tape == p.tape.(useJupiter := true) && SameFloor(CeilingGuard(tp, p.guard), p'.guard))
    && (Rank(o) == 5 ==> Closed(p, p', o))
    && (Rank(o) >= 6 ==> p'.tape == p.tape && SameFloor(UpgradeGuard(tp, v.profit, p.guard), p'.guard))
    && (Rank(o) == 6 ==> n > 0 && o == Some(Order(TpSell(cfg, tp, p.live, n), Tp(n), false)) && p'.sells == MarkTp(p.sells, n))
    && (Rank(o) == 7 ==> p'.sells == p.sells)
  }

  lemma ProfitRanks(cfg: Config, v: View, tp: TpProfile, p: Pos)
    ensures var (p', o) := ProfitStage(cfg, v, tp, p); ProfitDecides(cfg, v, tp, p, p', o)
  {
    hide CeilingDue, TrailPct, TrailingDue, NextTp, MarkTp, TpSell, CeilingPct, UpgradeGuard, CeilingGuard;
  }

  /** The same from the stop check on. */
  predicate StopDecides(cfg: Config, v: View, tp: TpProfile, p: Pos, p': Pos, o: Option<Order>) {
    && Rank(o) >= 3
    && p'.guard.slStreak == SlCount(SlBad(cfg, v, p.guard.floor), p.guard.slStreak)
    && (Rank(o) == 3 <==> !SlGrace(cfg, v) && p'.guard.slStreak >= SlNeeded(cfg))
    && (Rank(o) == 3 ==> Closed(p, p', o))
    && (Rank(o) >= 4 ==> ProfitDecides(cfg, v, tp, p, p', o))
    && SameFlush(p.guard, p'.guard) && p'.entry == p.entry && p'.live == p.live
  }

  predicate SameFlush(g: Guard, g': Guard) {
    g'.flushActive == g.flushActive && g'.flushLow == g.flushLow && g'.recovery == g.recovery && g'.decayStreak == g.decayStreak
  }

  lemma StopRanks(cfg: Config, v: View, tp: TpProfile, p: Pos)
    ensures var (p', o) := StopStage(cfg, v, tp, p); StopDecides(cfg, v, tp, p, p', o)
  {
    hide SlGrace, SlNeeded, SlBad, SlCount, ProfitStage, CeilingDue, TrailPct, NextTp, MarkTp, TpSell, CeilingPct;
    var q := p.(guard := p.guard.(slStreak := SlCount(SlBad(cfg, v, p.guard.floor), p.guard.slStreak)));
    ProfitRanks(cfg, v, tp, q);
    ProfitStageGuard(cfg, v, tp, q);
    ProfitKeepsRecovery(cfg, v, tp, q);
  }

  /** The same for the whole tick, from the position the checks start with. */
  predicate Decides(cfg: Config, v: View, tp: TpProfile, kill: nat, p: Pos, p': Pos, o: Option<Order>) {
    var d := DecayStep(cfg, v, p.entry, p.tape, p.live, p.guard);
    && (Rank(o) == 0 <==> DecayEvaluated(cfg, v, p.entry, p.live) && d.decayStreak >= DecayNeeded(cfg, v))
    && (Rank(o) >= 1 ==> (Rank(o) == 1 <==> TimeKillDue(cfg, v, p, kill)))
    && (Rank(o) >= 2 ==> (Rank(o) == 2 <==> Crash(cfg, v)))
    && (Rank(o) < 3 ==> p'.guard == d && Closed(p, p', o))
    && (Rank(o) >= 3 ==> StopDecides(cfg, v, tp, p.(guard := d), p', o))
    && SameFlush(d, p'.guard) && p'.entry == p.entry && p'.live == p.live && SameFloor(p.guard, d) && d.slStreak == p.guard.slStreak
  }

  lemma StageRanks(cfg: Config, v: View, tp: TpProfile, kill: nat, p: Pos)
    ensures var (p', o) := ExitStage(cfg, v, tp, kill, p); Decides(cfg, v, tp, kill, p, p', o)
  {
    hide DecayEvaluated, DecayBad, DecayNeeded, WithRecovery, TimeKillDue, Crash, StopStage, SlGrace, SlNeeded, SlBad, SlCount, ProfitDecides;
    RecoveryKeeps(cfg, v, p.entry, p.tape, p.live, p.guard);
    var d := DecayStep(cfg, v, p.entry, p.tape, p.live, p.guard);
    StopRanks(cfg, v, tp, p.(guard := d));
    KillIgnoresGuard(cfg, v, p, d, kill);
  }

  lemma KillIgnoresGuard(cfg: Config, v: View, p: Pos, g: Guard, kill: nat)
    ensures TimeKillDue(cfg, v, p.(guard := g), kill) <==> TimeKillDue(cfg, v, p, kill)
  {
    hide TierOf;
  }

  lemma ProfitKeepsRecovery(cfg: Config, v: View, tp: TpProfile, p: Pos)
    ensures ProfitStage(cfg, v, tp, p).0.guard.recovery == p.guard.recovery
  {
    hide CeilingDue, TrailPct, TrailingDue, NextTp, MarkTp, TpSell, CeilingPct;
  }

  lemma TickRanks(cfg: Config, now: nat, p: Pos)
    requires !p.sells.closing
    ensures var v, q, (p', o) := ObserveView(cfg, now, p.entry, p.tape), Prepared(cfg, now, p), TickStep(cfg, now, p);
            Decides(cfg, v, TpFor(cfg, q.live), KillAfter(cfg, v, q.entry, q.tape.highest), q, p', o)
            && q.entry == p.entry && q.sells == p.sells && v.now == now
  {
    hide ObserveTape, RefreshLive, LockFloor, TpFor, KillAfter, ExitStage, Decides;
    var v, q := ObserveView(cfg, now, p.entry, p.tape), Prepared(cfg, now, p);
    StageRanks(cfg, v, TpFor(cfg, q.live), KillAfter(cfg, v, q.entry, q.tape.highest), q);
  }

  // ---- the trailing exit -----------------------------------------------------------------------------

  /** How far below the session high, in percent, a trailing position may fall. */
  function Tolerance(cfg: Config, l: Live, profit: real): real {
    if !cfg.v4.enabled then cfg.plain.drawdown
    else if l.score >= 15 then 40.0
    else if l.profile.Runner? then 38.0
    else if l.score >= 11 then 24.0
    else if l.profile.Strong? then 22.0
    else if l.profile.Neutral? || profit > 50.0 then 18.0
    else 14.0
  }

  lemma TrailingMeans(cfg: Config, v: View, l: Live, t: Tape, g: Guard)
    ensures TrailPct(cfg, v, l, TpFor(cfg, l)) == Tolerance(cfg, l, v.profit)
    ensures TrailingDue(v, Tolerance(cfg, l, v.profit), t, g) <==>
            g.trailing && t.highest - v.cur >= Tolerance(cfg, l, v.profit) / 100.0 * t.highest
  {
    var x, h := Tolerance(cfg, l, v.profit) / 100.0, t.highest;
    assert h * (1.0 - x) == h - x * h;
  }

  /** The drop from a positive high, in percent. */
  lemma DropInPercent(highest: real, cur: real, x: real)
    requires highest > 0.0
    ensures highest - cur >= x / 100.0 * highest <==> (highest - cur) / highest * 100.0 >= x
  {
    RatioAtLeast(highest - cur, highest, x / 100.0, x / 100.0 * highest);
  }

  /** On a tick of an open position on which no decay exit, time kill, crash, stop or ceiling lock is due, and
      on no other, a trailing exit is queued exactly when trailing is on and the drop of the filtered mcap from
      the session high, in percent of that high, is at least the tolerance of profile, score and profit. */
  lemma {:induction false} TrailingExitIff(cfg: Config, now: nat, p: Pos)
    requires !p.sells.closing
    ensures var v, q, o := ObserveView(cfg, now, p.entry, p.tape), Prepared(cfg, now, p), TickStep(cfg, now, p).1;
            var x, high := Tolerance(cfg, q.live, v.profit), q.tape.highest;
            && (NothingDue(cfg, v, KillAfter(cfg, v, q.entry, high), q) <==> Rank(o) >= 5)
            && (Rank(o) >= 5 ==>
                  (o.Some? && o.value.kind.TrailingExit? <==> q.guard.trailing && high - v.cur >= x / 100.0 * high)
                  && (high > 0.0 ==>
                        (o.Some? && o.value.kind.TrailingExit? <==> q.guard.trailing && (high - v.cur) / high * 100.0 >= x)))
            && (o.Some? && o.value.kind.TrailingExit? ==> Rank(o) >= 5 && o.value.pct == 100.0)
  {
    hide ObserveView, Prepared, KillAfter, TpFor, TickStep, TrailPct, Tolerance, TimeKillDue, Crash, SlGrace, SlBad, SlNeeded, SlCount,
         CeilingDue, DecayStep, DecayEvaluated, DecayNeeded, NextTp, MarkTp, TpSell, UpgradeGuard, CeilingGuard, TrailingDue;
    TickRanks(cfg, now, p);
    var v, q := ObserveView(cfg, now, p.entry, p.tape), Prepared(cfg, now, p);
    var d := DecayStep(cfg, v, q.entry, q.tape, q.live, q.guard);
    TrailingMeans(cfg, v, q.live, q.tape, d);
    if q.tape.highest > 0.0 { DropInPercent(q.tape.highest, v.cur, Tolerance(cfg, q.live, v.profit)); }
  }

  /** A tick at a positive session high never trails out, whatever the profile, as long as the plain tolerance
      is positive where it is the one in use. */
  lemma NoTrailingExitAtHigh(cfg: Config, now: nat, p: Pos)
    requires !p.sells.closing && (cfg.v4.enabled || cfg.plain.drawdown > 0.0)
    ensures var v, q, o := ObserveView(cfg, now, p.entry, p.tape), Prepared(cfg, now, p), TickStep(cfg, now, p).1;
            v.cur == q.tape.highest > 0.0 ==> !(o.Some? && o.value.kind.TrailingExit?)
  {
    hide ObserveView, Prepared, TickStep, KillAfter, NothingDue, Tolerance;
    TrailingExitIff(cfg, now, p);
    var v, q := ObserveView(cfg, now, p.entry, p.tape), Prepared(cfg, now, p);
    TolerancePositive(cfg, q.live, v.profit);
    if q.tape.highest > 0.0 { Strict(0.0, Tolerance(cfg, q.live, v.profit) / 100.0, q.tape.highest); }
  }

  lemma TolerancePositive(cfg: Config, l: Live, profit: real)
    ensures cfg.v4.enabled || cfg.plain.drawdown > 0.0 ==> Tolerance(cfg, l, profit) > 0.0
    ensures forall lower :: lower <= profit ==> Tolerance(cfg, l, lower) <= Tolerance(cfg, l, profit)
  {
  }

  /** A lower filtered mcap, and with it a lower profit, never cancels a trailing exit: what the profit checks
      decide stays a trailing exit, and what the whole tick decides stays a full close. */
  lemma LowerPriceStillCloses(cfg: Config, v: View, v': View, l: Live, kill: nat, kill': nat, p: Pos)
    requires v' == v.(cur := v'.cur, profit := v'.profit) && v'.cur <= v.cur && v'.profit <= v.profit
    requires p.live == l && p.tape.highest >= 0.0
    ensures var tp := TpFor(cfg, l);
            && (Rank(ProfitStage(cfg, v, tp, p).1) == 5 ==> Rank(ProfitStage(cfg, v', tp, p).1) == 5)
            && (Rank(ExitStage(cfg, v, tp, kill, p).1) == 5 ==>
                  var o := ExitStage(cfg, v', tp, kill', p).1; o.Some? && FullKind(o.value.kind) && o.value.pct == 100.0)
  {
    hide TpFor, TimeKillDue, Crash, SlGrace, SlBad, SlNeeded, SlCount, TrailPct, Tolerance, TrailingDue, ExitStage, ProfitStage,
         DecayStep, DecayEvaluated, DecayNeeded, NextTp, MarkTp, TpSell, UpgradeGuard, CeilingGuard;
    var tp := TpFor(cfg, l);
    ProfitRanks(cfg, v, tp, p);
    ProfitRanks(cfg, v', tp, p);
    StageRanks(cfg, v, tp, kill, p);
    StageRanks(cfg, v', tp, kill', p);
    var d, d' := DecayStep(cfg, v, p.entry, p.tape, l, p.guard), DecayStep(cfg, v', p.entry, p.tape, l, p.guard);
    LowerTrails(cfg, v, v', p, p.guard, p.guard);
    LowerTrails(cfg, v, v', p, d, d');
  }

  lemma LowerTrails(cfg: Config, v: View, v': View, p: Pos, g: Guard, g': Guard)
    requires v'.cur <= v.cur && v'.profit <= v.profit && p.tape.highest >= 0.0 && g'.trailing == g.trailing
    ensures var tp := TpFor(cfg, p.live);
            TrailingDue(v, TrailPct(cfg, v, p.live, tp), p.tape, g) ==> TrailingDue(v', TrailPct(cfg, v', p.live, tp), p.tape, g')
  {
    hide TrailPct, TrailingDue, TpFor, Tolerance;
    TrailingMeans(cfg, v, p.live, p.tape, g);
    TrailingMeans(cfg, v', p.live, p.tape, g');
    TolerancePositive(cfg, p.live, v.profit);
    ScaleMono(Tolerance(cfg, p.live, v'.profit) / 100.0, Tolerance(cfg, p.live, v.profit) / 100.0, p.tape.highest);
  }

  // ---- the time kill -----------------------------------------------------------------------------------

  function HowMany(bs: seq<bool>): nat { if bs == [] then 0 else AsNat(bs[0]) + HowMany(bs[1..]) }

  /** The signs of a strong start. */
  function Strength(k: KillConfig, v: View, e: Entry): seq<bool> {
    [e.tkSmart >= 1, e.tkBuyers >= k.strongMinBuyers, e.tkB2s >= k.strongMinB2s, v.held >= 6 && v.vel >= k.velStrong, v.profit >= k.earlyGreen]
  }

  /** The signs of a weak one. */
  function Weakness(k: KillConfig, v: View, e: Entry, highest: real): seq<bool> {
    [e.tkSmart == 0, 0 < e.tkBuyers < k.weakMaxBuyers, 0.0 < e.tkB2s < k.weakMaxB2s,
     v.held >= 8 && -k.velFlat <= v.vel <= k.velFlat,
     v.profit < k.minProfit && if highest > 0.0 then highest - v.cur >= k.peakDrawdown * highest else k.peakDrawdown <= 0.0]
  }

  /** `x` is the wanted value as far as it lies in the range, and the nearer end otherwise. */
  predicate Nearest(x: nat, want: nat, lo: nat, hi: nat) {
    lo <= x <= hi && (lo <= want <= hi ==> x == want) && (want < lo ==> x == lo) && (want > hi ==> x == hi)
  }

  predicate BaseWindow(x: nat, k: KillConfig, strong: nat, weak: nat) {
    if !k.adaptive then x == k.secs
    else if strong >= 4 && weak <= 1 then Nearest(x, k.strongSecs, 45, 80)
    else if weak >= 3 && strong <= 1 then Nearest(x, k.weakSecs, 18, 28)
    else Nearest(x, k.neutralSecs, 20, 45)
  }

  lemma FiveOf(b0: bool, b1: bool, b2: bool, b3: bool, b4: bool)
    ensures HowMany([b0, b1, b2, b3, b4]) == AsNat(b0) + AsNat(b1) + AsNat(b2) + AsNat(b3) + AsNat(b4)
  {
    assert [b4][1..] == [] && [b3, b4][1..] == [b4] && [b2, b3, b4][1..] == [b3, b4];
    assert HowMany([b2, b3, b4]) == AsNat(b2) + AsNat(b3) + AsNat(b4) by { assert HowMany([b4]) == AsNat(b4); }
    assert [b1, b2, b3, b4][1..] == [b2, b3, b4] && [b0, b1, b2, b3, b4][1..] == [b1, b2, b3, b4];
  }

  /** The window without the v4 engine: fixed, or by counting signs of strength and weakness, each kind within
      its own range. */
  lemma KillWindow(cfg: Config, v: View, e: Entry, highest: real)
    requires !cfg.v4.enabled
    ensures BaseWindow(KillAfter(cfg, v, e, highest), cfg.kill, HowMany(Strength(cfg.kill, v, e)), HowMany(Weakness(cfg.kill, v, e, highest)))
  {
    hide HowMany;
    var k, s, w := cfg.kill, Strength(cfg.kill, v, e), Weakness(cfg.kill, v, e, highest);
    FiveOf(s[0], s[1], s[2], s[3], s[4]);
    FiveOf(w[0], w[1], w[2], w[3], w[4]);
    if highest > 0.0 { RatioAtLeast(highest - v.cur, highest, k.peakDrawdown, k.peakDrawdown * highest); }
  }

  /** The v4 engine only lengthens the window: to the minimum of tier A+, and to the deferral of a tier A
      entry with momentum whose raw profit is above the limit; it is the largest of those that apply. */
  lemma KillWindowV4(cfg: Config, v: View, e: Entry, highest: real)
    requires cfg.v4.enabled
    ensures var x, base := KillAfter(cfg, v, e, highest), KillAfter(cfg.(v4 := cfg.v4.(enabled := false)), v, e, highest);
            var aPlus := e.snap.Some? && e.snap.value.tier.TierAPlus?;
            var defers := e.snap.Some? && e.snap.value.tier.TierA? && e.snap.value.momentumGood && v.profitRaw > cfg.v4.aKillDeferPct;
            && x >= base && (aPlus ==> x >= cfg.v4.aPlusKillMin) && (defers ==> x >= cfg.v4.aKillDefer)
            && (x == base || (aPlus && x == cfg.v4.aPlusKillMin) || (defers && x == cfg.v4.aKillDefer))
  {
  }

  /** On a tick without a decay exit, a time kill is queued exactly when the profit is under the minimum, the
      window has passed, and neither exemption holds: a strong or runner position after a take-profit with
      enough profit left, or an A+ entry that is young or well in raw profit. */
  lemma {:induction false} TimeKillIff(cfg: Config, now: nat, p: Pos)
    requires !p.sells.closing
    ensures var v, q, o := ObserveView(cfg, now, p.entry, p.tape), Prepared(cfg, now, p), TickStep(cfg, now, p).1;
            var kept := (q.live.profile.Strong? || q.live.profile.Runner?) && (p.sells.tp1 || p.sells.tp2) && v.profit >= cfg.v4.strongKillMin;
            var aPlus := p.entry.snap.Some? && p.entry.snap.value.tier.TierAPlus?
                         && (v.held < cfg.v4.aPlusKillMin || v.profitRaw >= cfg.v4.aPlusKillMinPct);
            Rank(o) >= 1 ==>
              (o.Some? && o.value.kind.TimeKill? <==>
                 && v.profit < cfg.kill.minProfit && now >= p.entry.time + KillAfter(cfg, v, p.entry, q.tape.highest)
                 && !(cfg.v4.enabled && (kept || aPlus)))
  {
    hide ObserveView, Prepared, KillAfter, TpFor, TickStep, Crash, StopDecides, DecayStep, DecayEvaluated, DecayNeeded;
    TickRanks(cfg, now, p);
  }

  // ---- crash and stop -------------------------------------------------------------------------------------

  lemma DropSeen(cfg: Config, now: nat, e: Entry, t: Tape)
    ensures var v := ObserveView(cfg, now, e, t);
            v.drop == (if t.prevRaw.Some? then TickDrop(t.prevRaw.value, v.raw) else None) && v.held == SatSub(now, e.time)
  {
    hide ObserveTape, Filtered, Velocity, PnlAt, TickDrop, RawMcap;
  }

  lemma DropMeans(prev: real, raw: real, x: real)
    ensures TickDrop(prev, raw).Some? && TickDrop(prev, raw).value >= x <==>
            0.0 < prev <= 200000.0 && 0.0 < raw <= 200000.0 && prev - raw >= x / 100.0 * prev
  {
    if prev > 0.0 { RatioAtLeast(prev - raw, prev, x / 100.0, x / 100.0 * prev); }
  }

  /** On a tick that got past decay and time kill, a crash exit is queued, urgently, exactly when one of the two
      profits is at or under the crash level; or, out of the stop grace, when the raw mcap fell by the crash
      drop or more since the previous tick, both being usable, and the raw profit is negative. */
  lemma {:induction false} CrashIff(cfg: Config, now: nat, p: Pos)
    requires !p.sells.closing
    ensures var v, o := ObserveView(cfg, now, p.entry, p.tape), TickStep(cfg, now, p).1;
            var fell := p.tape.prevRaw.Some? && 0.0 < p.tape.prevRaw.value <= 200000.0 && 0.0 < v.raw <= 200000.0
                        && p.tape.prevRaw.value - v.raw >= cfg.crashDrop / 100.0 * p.tape.prevRaw.value;
            && (Rank(o) >= 2 ==>
                  (o.Some? && o.value.kind.SlCrash? <==>
                     v.profit <= cfg.crashPnl || v.profitRaw <= cfg.crashPnl || (v.held >= cfg.slGrace && fell && v.profitRaw < 0.0)))
            && (o.Some? ==> (o.value.urgent <==> o.value.kind.SlCrash?))
  {
    hide ObserveView, Prepared, KillAfter, TpFor, TickStep, TimeKillDue, StopDecides, TickDrop, DecayStep, DecayEvaluated, DecayNeeded;
    TickRanks(cfg, now, p);
    TickOrder(cfg, now, p);
    DropSeen(cfg, now, p.entry, p.tape);
    if p.tape.prevRaw.Some? { DropMeans(p.tape.prevRaw.value, ObserveView(cfg, now, p.entry, p.tape).raw, cfg.crashDrop); }
  }

  /** A tick that got to the stop check counts it: one more, up to 255, when it is out of grace and one of the
      two profits is at or under the locked floor, and from zero otherwise. It stops exactly when, out of
      grace, the count has reached the low eight bits of the configured number. */
  lemma {:induction false} StopIff(cfg: Config, now: nat, p: Pos)
    requires !p.sells.closing
    ensures var v, q, (p', o) := ObserveView(cfg, now, p.entry, p.tape), Prepared(cfg, now, p), TickStep(cfg, now, p);
            var bad := v.held >= cfg.slGrace && (v.profit <= q.guard.floor || v.profitRaw <= q.guard.floor);
            var needed := (if cfg.slConfirm == 0 then 1 else cfg.slConfirm) % 256;
            && (Rank(o) < 3 ==> p'.guard.slStreak == p.guard.slStreak)
            && (Rank(o) >= 3 ==>
                  && p'.guard.slStreak == (if !bad then 0 else if p.guard.slStreak < 255 then p.guard.slStreak + 1 else 255)
                  && (o.Some? && o.value.kind.StopLoss? <==> v.held >= cfg.slGrace && p'.guard.slStreak >= needed))
  {
    hide ObserveView, KillAfter, TpFor, TickStep, TimeKillDue, Crash, ProfitDecides, DecayStep, DecayEvaluated, DecayNeeded,
         ObserveTape, RefreshLive, LockFloor;
    TickRanks(cfg, now, p);
  }

  // ---- partial sells ------------------------------------------------------------------------------------------

  /** On a tick without an exit so far, the ceiling lock is queued exactly when a ceiling is set and reached, it
      has not been queued before, and no partial is in flight. It sells the configured part, kept between 1%
      and 99%, switches to the Jupiter market cap and turns trailing on with at least the trailing floor. */
  lemma {:induction false} CeilingIff(cfg: Config, now: nat, p: Pos)
    requires !p.sells.closing
    ensures var v, q, (p', o) := ObserveView(cfg, now, p.entry, p.tape), Prepared(cfg, now, p), TickStep(cfg, now, p);
            var locks := o.Some? && o.value.kind.CeilingLock?;
            && (Rank(o) >= 4 ==> (locks <==> 0.0 < cfg.ceilingSol <= v.cur && !p.sells.ceiling && !p.sells.pending))
            && (locks ==>
                  && 1.0 <= o.value.pct <= 99.0 && (1.0 <= cfg.ceilingPct <= 99.0 ==> o.value.pct == cfg.ceilingPct)
                  && (cfg.ceilingPct < 1.0 ==> o.value.pct == 1.0) && (cfg.ceilingPct > 99.0 ==> o.value.pct == 99.0)
                  && p'.sells == p.sells.(ceiling := true, pending := true)
                  && p'.tape == q.tape.(useJupiter := true) && p'.guard.trailing
                  && p'.guard.floor ==
                     if q.guard.trailing || q.guard.floor >= TrailFloorOf(cfg, q.live.profile) then q.guard.floor
                     else TrailFloorOf(cfg, q.live.profile))
  {
    hide ObserveView, Prepared, KillAfter, TpFor, TickStep, TimeKillDue, Crash, SlGrace, SlBad, SlNeeded, SlCount, TrailPct, TrailingDue,
         DecayStep, DecayEvaluated, DecayNeeded, NextTp, MarkTp, TpSell, UpgradeGuard, TrailFloorOf, SmartFloorOf;
    TickRanks(cfg, now, p);
    PhaseKeepsFloors(cfg, Prepared(cfg, now, p).live);
  }

  /** The take-profit table in use: the profile's, or the plain one without the v4 engine. */
  function Table(cfg: Config, l: Live): TpProfile {
    if !cfg.v4.enabled then cfg.plain
    else if l.profile.Weak? then cfg.v4.weak
    else if l.profile.Neutral? then cfg.v4.neutral
    else if l.profile.Strong? then cfg.v4.strong
    else cfg.v4.runner
  }

  function Levels(t: TpProfile): seq<real> { [t.tp1Pct, t.tp2Pct, t.tp3Pct, t.tp4Pct, t.tp5Pct] }

  function SellParts(t: TpProfile): seq<real> { [t.tp1Sell, t.tp2Sell, t.tp3Sell, t.tp4Sell, t.tp5Sell] }

  function Flags(s: Sells): (f: seq<bool>)
    ensures |f| == 5
  {
    [s.tp1, s.tp2, s.tp3, s.tp4, s.tp5]
  }

  /** Take-profit `n` is reached and has not fired. */
  predicate Waits(t: TpProfile, profit: real, s: Sells, n: nat)
    requires 1 <= n <= 5
  {
    profit >= Levels(t)[n - 1] && !Flags(s)[n - 1]
  }

  /** How much take-profit `n` sells. In distribution the first two sell more, up to a cap; in expansion the
      last three sell less; and in expansion and momentum a strong score keeps more of those as a moonbag. */
  function SellShare(cfg: Config, l: Live, n: nat): real
    requires 1 <= n <= 5
  {
    var base := SellParts(Table(cfg, l))[n - 1];
    if !cfg.v4.enabled then base
    else if n == 1 && l.phase.Distribution? then if base * 1.2 > 55.0 then 55.0 else base * 1.2
    else if n == 2 && l.phase.Distribution? then if base * 1.15 > 50.0 then 50.0 else base * 1.15
    else if n <= 2 then base
    else
      var thinned := if l.phase.Expansion? then base * 0.85 else base;
      if !cfg.v4.moonbag || l.phase.Exploration? || l.phase.Distribution? || l.score < 9 then thinned
      else if l.score < 12 then thinned * 0.75 else thinned * 0.5
  }

  lemma SharesMean(cfg: Config, l: Live, n: nat)
    requires 1 <= n <= 5
    ensures TpSell(cfg, TpFor(cfg, l), l, n) == SellShare(cfg, l, n)
  {
  }

  lemma LevelsMean(cfg: Config, l: Live)
    ensures Levels(TpFor(cfg, l)) == Levels(Table(cfg, l))
  {
  }

  lemma NextMeans(tp: TpProfile, t: TpProfile, profit: real, s: Sells, n: nat)
    requires Levels(tp) == Levels(t) && 1 <= n <= 5
    ensures NextTp(tp, profit, s) == n <==> Waits(t, profit, s, n) && forall j :: 1 <= j < n ==> !Waits(t, profit, s, j)
    ensures NextTp(tp, profit, s) == 0 ==> !Waits(t, profit, s, n)
  {
    var a, b := Levels(tp), Levels(t);
    assert a[0] == b[0] && a[1] == b[1] && a[2] == b[2] && a[3] == b[3] && a[4] == b[4];
    assert Waits(t, profit, s, 1) <==> profit >= tp.tp1Pct && !s.tp1;
    assert Waits(t, profit, s, 2) <==> profit >= tp.tp2Pct && !s.tp2;
    assert Waits(t, profit, s, 3) <==> profit >= tp.tp3Pct && !s.tp3;
    assert Waits(t, profit, s, 4) <==> profit >= tp.tp4Pct && !s.tp4;
    assert Waits(t, profit, s, 5) <==> profit >= tp.tp5Pct && !s.tp5;
    hide Waits;
  }

  lemma FlagAt(s: Sells, n: nat)
    requires 1 <= n <= 5
    ensures Flags(s)[n - 1] == TpHit(s, n)
  {
  }

  lemma MarkFlight(s: Sells, n: nat)
    requires 1 <= n <= 5
    ensures MarkTp(s, n).pending && MarkTp(s, n).closing == s.closing && MarkTp(s, n).ceiling == s.ceiling
  {
    if n == 1 { } else if n == 2 { } else if n == 3 { } else if n == 4 { } else { }
  }

  lemma MarkMeans(s: Sells, n: nat)
    requires 1 <= n <= 5
    ensures MarkTp(s, n).pending && MarkTp(s, n).closing == s.closing && MarkTp(s, n).ceiling == s.ceiling
    ensures forall j :: 0 <= j < 5 ==> Flags(MarkTp(s, n))[j] == (Flags(s)[j] || j == n - 1)
  {
    hide MarkTp, Flags, TpHit;
    MarkFlight(s, n);
    forall j | 0 <= j < 5 ensures Flags(MarkTp(s, n))[j] == (Flags(s)[j] || j == n - 1) {
      FlagAt(s, j + 1);
      FlagAt(MarkTp(s, n), j + 1);
      MarkTpFlags(s, n, j + 1);
    }
  }

  /** On a tick without any earlier order, take-profit `n` is queued exactly when no partial is in flight, its
      profit level is reached, it has not fired, and no lower one is still waiting; it sells the share of
      profile, phase and score, and from then on it has fired and a partial is in flight. */
  lemma {:induction false} TakeProfitIff(cfg: Config, now: nat, p: Pos, n: nat)
    requires !p.sells.closing && 1 <= n <= 5
    ensures var v, q, (p', o) := ObserveView(cfg, now, p.entry, p.tape), Prepared(cfg, now, p), TickStep(cfg, now, p);
            var t, fires := Table(cfg, q.live), o.Some? && o.value.kind == Tp(n);
            && (Rank(o) >= 6 ==>
                  (fires <==> !p.sells.pending && Waits(t, v.profit, p.sells, n) && forall j :: 1 <= j < n ==> !Waits(t, v.profit, p.sells, j)))
            && (fires ==>
                  && o.value.pct == SellShare(cfg, q.live, n) && p'.sells.pending
                  && (forall j :: 0 <= j < 5 ==> Flags(p'.sells)[j] == (Flags(p.sells)[j] || j == n - 1))
                  && p'.sells.ceiling == p.sells.ceiling && !p'.sells.closing)
  {
    hide ObserveView, Prepared, KillAfter, TpFor, TickStep, TimeKillDue, Crash, SlGrace, SlBad, SlNeeded, SlCount, TrailPct, TrailingDue,
         DecayStep, DecayEvaluated, DecayNeeded, NextTp, MarkTp, TpSell, UpgradeGuard, CeilingGuard, CeilingDue, SellShare, Flags, Levels, Waits, Table;
    TickRanks(cfg, now, p);
    var v, q := ObserveView(cfg, now, p.entry, p.tape), Prepared(cfg, now, p);
    LevelsMean(cfg, q.live);
    NextMeans(TpFor(cfg, q.live), Table(cfg, q.live), v.profit, p.sells, n);
    SharesMean(cfg, q.live, n);
    MarkMeans(p.sells, n);
  }

  // ---- protection --------------------------------------------------------------------------------------------

  /** The profit that turns trailing on: the profile's, 5% higher in momentum and 15% lower in distribution. */
  function Activation(cfg: Config, l: Live): real {
    var base := Table(cfg, l).trailActivate;
    if !cfg.v4.enabled then 80.0
    else if l.phase.Momentum? then base * 1.05
    else if l.phase.Distribution? then base * 0.85
    else base
  }

  /** A tick without exit or ceiling lock turns trailing on exactly at the activation profit, with the trailing
      floor of the profile; under it, the smart stop raises a lower floor to its own. Exits leave both alone. */
  lemma {:induction false} ProtectionIff(cfg: Config, now: nat, p: Pos)
    requires !p.sells.closing
    ensures var v, q, (p', o) := ObserveView(cfg, now, p.entry, p.tape), Prepared(cfg, now, p), TickStep(cfg, now, p);
            var t, active := Table(cfg, q.live), v.profit >= Activation(cfg, q.live);
            var trailFloor, smartAt, smartFloor := if cfg.v4.enabled then t.trailFloor else 35.0,
                                                   if cfg.v4.enabled then t.smartActivate else 50.0,
                                                   if cfg.v4.enabled then t.smartFloor else 5.0;
            && (Rank(o) >= 6 ==>
                  && (p'.guard.trailing <==> q.guard.trailing || active)
                  && p'.guard.floor == if active && !q.guard.trailing then trailFloor
                                       else if !active && v.profit >= smartAt && q.guard.floor < smartFloor then smartFloor
                                       else q.guard.floor)
            && (Rank(o) <= 3 || Rank(o) == 5 ==> p'.guard.trailing == q.guard.trailing && p'.guard.floor == q.guard.floor)
  {
    hide ObserveView, Prepared, KillAfter, TpFor, TickStep, TimeKillDue, Crash, SlGrace, SlBad, SlNeeded, SlCount, TrailPct, TrailingDue,
         DecayStep, DecayEvaluated, DecayNeeded, NextTp, MarkTp, TpSell, CeilingGuard, CeilingDue, Table, Activation;
    TickRanks(cfg, now, p);
    ThresholdsMean(cfg, Prepared(cfg, now, p).live);
  }

  lemma ThresholdsMean(cfg: Config, l: Live)
    ensures var tp, t := TpFor(cfg, l), Table(cfg, l);
            && tp.trailActivate == Activation(cfg, l)
            && (cfg.v4.enabled ==> tp.trailFloor == t.trailFloor && tp.smartActivate == t.smartActivate && tp.smartFloor == t.smartFloor)
            && (!cfg.v4.enabled ==> tp.trailFloor == 35.0 && tp.smartActivate == 50.0 && tp.smartFloor == 5.0)
  {
  }
}
