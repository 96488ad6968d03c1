/**
 The mutable position of src/autobuy/positions.rs, and its share of the loop in
 `process_positions` (src/autobuy/manager.rs), updated in place in the program's order of checks.
 `State` is its value as PositionSpec sees it.
 */
module Positions {

  import opened Common
  import opened ExitFilter
  import opened ExitEngine
  import opened Amounts
  import opened PositionSpec

  class Position {
    const entry: Entry
    var holdings: nat
    var returned: real
    var tape: Tape
    var live: Live
    var guard: Guard
    var sells: Sells

    function State(): Pos
      reads this
    {
      Pos(entry, holdings, returned, tape, live, guard, sells)
    }

    constructor (cfg: Config, o: Opening)
      ensures State() == Open(cfg, o)
    {
      var p := Open(cfg, o);
      entry := p.entry;
      holdings := p.holdings;
      returned := 0.0;
      tape := p.tape;
      live := p.live;
      guard := p.guard;
      sells := p.sells;
    }

    /** `push_exit_mcap_tick`. */
    method PushExitMcapTick(raw: real, max: nat)
      modifies this`tape
      ensures tape == old(tape).(ticks := PushTick(old(tape.ticks), raw, max))
    {
      if ValidMcap(raw) {
        tape := tape.(ticks := tape.ticks + [raw]);
        if |tape.ticks| > max {
          var drop := |tape.ticks| - max;
          tape := tape.(ticks := tape.ticks[drop..]);
        }
      }
    }

    /** `time_kill_note_mcap_sample`. */
    method NoteMcapSample(now: nat, mcap: real)
      modifies this`tape
      ensures tape == NoteSample(old(tape), now, mcap)
    {
      if tape.tkLastSecs == 0 {
        tape := tape.(tkLastSecs := now, tkLastMcap := mcap, tkPrevSecs := now, tkPrevMcap := mcap);
        return;
      }
      if now == tape.tkLastSecs {
        tape := tape.(tkLastMcap := mcap);
        return;
      }
      tape := tape.(tkPrevSecs := tape.tkLastSecs, tkPrevMcap := tape.tkLastMcap);
      tape := tape.(tkLastSecs := now, tkLastMcap := mcap);
    }

    /** The first part of a tick: tape, high, samples, peak. */
    method Observe(cfg: Config, now: nat) returns (v: View)
      modifies this`tape
      ensures tape == ObserveTape(cfg, now, entry, old(tape)) && v == ObserveView(cfg, now, entry, old(tape))
    {
      hide Filtered, PushTick, NoteSample, Velocity, PnlAt, TickDrop;
      ghost var t0 := tape;
      var raw := RawMcap(tape);
      PushExitMcapTick(raw, cfg.medianTicks);
      var cur := Filtered(tape.ticks, ToFloat(entry.mcapRaw), cfg.bandLow, cfg.bandHigh);
      if cur > tape.highest {
        tape := tape.(highest := cur);
      }
      ghost var t1 := tape;
      assert t1 == t0.(ticks := t1.ticks, highest := t1.highest);
      SampleCommutes(t0, now, cur, t1.ticks, t1.highest);
      NoteMcapSample(now, cur);
      var profit, profitRaw := PnlAt(entry, cur), PnlAt(entry, raw);
      var drop := if tape.prevRaw.Some? then TickDrop(tape.prevRaw.value, raw) else None;
      tape := tape.(prevRaw := Some(raw));
      if profit > tape.peak {
        tape := tape.(peak := profit);
      }
      v := View(now, SatSub(now, entry.time), raw, cur, profit, profitRaw, drop, Velocity(tape, ToFloat(entry.mcapRaw)));
      VelocityDependsOnSamples(tape, ObserveTape(cfg, now, entry, t0), ToFloat(entry.mcapRaw));
    }

    static lemma SampleCommutes(t: Tape, now: nat, mcap: real, ticks: seq<real>, highest: real)
      ensures NoteSample(t.(ticks := ticks, highest := highest), now, mcap) == NoteSample(t, now, mcap).(ticks := ticks, highest := highest)
      ensures var n := NoteSample(t, now, mcap);
              && n.prevRaw == t.prevRaw && n.peak == t.peak && n.pool == t.pool && n.useJupiter == t.useJupiter && n.jupiter == t.jupiter
    {
    }

    static lemma VelocityDependsOnSamples(t: Tape, t': Tape, enter: real)
      requires t.tkLastSecs == t'.tkLastSecs && t.tkPrevSecs == t'.tkPrevSecs && t.tkLastMcap == t'.tkLastMcap && t.tkPrevMcap == t'.tkPrevMcap
      ensures Velocity(t, enter) == Velocity(t', enter)
    {
    }

    /** Lite refresh of score, phase and profile. */
    method Refresh(cfg: Config, v: View)
      modifies this`live
      ensures live == RefreshLive(cfg, v, entry, old(live))
    {
      hide LiteMetrics, LiveScore, NextPhase, InGrace, UpgradesToRunner;
      if cfg.v4.enabled && !InGrace(cfg, v, entry) && SatSub(v.now, live.lastAt) >= cfg.v4.refreshSecs && !live.hasTape {
        var m := LiteMetrics(cfg, entry, live, v.vel, v.profit);
        var phase := live.phase;
        live := live.(score := MaxI(LiveScore(m), live.scoreFloor));
        live := live.(prevVel := v.vel, lastAt := v.now);
        live := live.(phase := NextPhase(cfg.v4, phase, live.score, m.momentumDecay, v.profit));
        if UpgradesToRunner(cfg.v4, live.profile, m, live.score, live.hold) {
          live := live.(profile := Runner, hold := true);
        }
      }
    }

    /** Decay block; true when it queues the exit. */
    method DecayExit(cfg: Config, v: View) returns (fired: bool)
      modifies this`guard
      ensures guard == DecayStep(cfg, v, entry, tape, live, old(guard))
      ensures fired <==> DecayEvaluated(cfg, v, entry, live) && guard.decayStreak >= DecayNeeded(cfg, v)
    {
      hide LiteMetrics, RecoveryScore, DecayNow, DecayEvaluated, DecayNeeded, DrawdownPct;
      fired := false;
      if DecayEvaluated(cfg, v, entry, live) {
        var decayNow := DecayNow(cfg, v, entry, live);
        if DrawdownPct(tape.highest, v.cur) >= cfg.v4.flushDrop {
          if !guard.flushActive {
            guard := guard.(flushActive := true, flushLow := v.cur);
          } else if v.cur < guard.flushLow {
            guard := guard.(flushLow := v.cur);
          }
        } else if v.cur >= tape.highest * 0.99 {
          guard := guard.(flushActive := false);
        }
        guard := guard.(recovery := RecoveryScore(LiteMetrics(cfg, entry, live, v.vel, v.profit), v.cur, guard.flushLow, tape.highest));
        var healthy := guard.flushActive && guard.recovery >= cfg.v4.recoveryMin;
        if decayNow && !healthy {
          guard := guard.(decayStreak := SatAdd8(guard.decayStreak, 1));
        } else {
          guard := guard.(decayStreak := 0);
        }
        fired := guard.decayStreak >= DecayNeeded(cfg, v);
      }
    }

    /** Ceiling, trailing, protection upgrades and take-profits. */
    method ProfitChecks(cfg: Config, v: View, tp: TpProfile) returns (o: Option<Order>)
      modifies this`tape, this`guard, this`sells
      ensures (State(), o) == ProfitStage(cfg, v, tp, old(State()))
    {
      hide TpSell, TrailPct, CeilingDue, NextTp, MarkTp;
      if CeilingDue(cfg, v, sells) {
        sells := sells.(ceiling := true);
        tape := tape.(useJupiter := true);
        if !guard.trailing {
          guard := guard.(trailing := true, floor := MaxR(guard.floor, tp.trailFloor));
        }
        sells := sells.(pending := true);
        return Some(Order(CeilingPct(cfg), CeilingLock, false));
      }
      if guard.trailing {
        var stop := tape.highest * (1.0 - TrailPct(cfg, v, live, tp) / 100.0);
        if v.cur <= stop {
          sells := sells.(closing := true);
          return Some(Order(100.0, TrailingExit, false));
        }
      }
      if v.profit >= tp.trailActivate {
        if !guard.trailing {
          guard := guard.(trailing := true, floor := tp.trailFloor);
        }
      } else if v.profit >= tp.smartActivate && guard.floor < tp.smartFloor {
        guard := guard.(floor := tp.smartFloor);
      }
      if sells.pending {
        return None;
      }
      var n := NextTp(tp, v.profit, sells);
      if n == 0 {
        return None;
      }
      sells := MarkTp(sells, n);
      return Some(Order(TpSell(cfg, tp, live, n), Tp(n), false));
    }

    /** One position's share of a tick; at most one order comes back. */
    method Tick(cfg: Config, now: nat) returns (o: Option<Order>)
      modifies this`tape, this`live, this`guard, this`sells
      ensures (State(), o) == TickStep(cfg, now, old(State()))
    {
      hide ObserveTape, ObserveView, RefreshLive, StairFloor, KillAfter, TpFor, DecayStep, DecayEvaluated, DecayNeeded, TimeKillDue, Crash, SlBad, SlGrace, SlNeeded, ProfitStage;
      if sells.closing {
        return None;
      }
      var v := Observe(cfg, now);
      Refresh(cfg, v);
      if cfg.v4.enabled && cfg.v4.staircase {
        var floor := StairFloor(tape.peak);
        if floor.Some? && guard.floor < floor.value {
          guard := guard.(floor := floor.value);
        }
      }
      ghost var q := State();
      assert q == Prepared(cfg, now, old(State()));
      var killAfter := KillAfter(cfg, v, entry, tape.highest);
      var tp := TpFor(cfg, live);
      o := Exits(cfg, v, tp, killAfter);
    }

    /** The exit checks in their fixed priority. */
    method Exits(cfg: Config, v: View, tp: TpProfile, killAfter: nat) returns (o: Option<Order>)
      modifies this`tape, this`guard, this`sells
      ensures (State(), o) == ExitStage(cfg, v, tp, killAfter, old(State()))
    {
      hide DecayStep, DecayEvaluated, DecayNeeded, TimeKillDue, Crash, SlGrace, SlNeeded, ProfitStage, SlProfit;
      var fired := DecayExit(cfg, v);
      if fired {
        sells := sells.(closing := true);
        return Some(Order(100.0, MomentumDecay, false));
      }
      if TimeKillDue(cfg, v, State(), killAfter) {
        sells := sells.(closing := true);
        return Some(Order(100.0, TimeKill, false));
      }
      if Crash(cfg, v) {
        sells := sells.(closing := true);
        return Some(Order(100.0, SlCrash, true));
      }
      if SlGrace(cfg, v) {
        guard := guard.(slStreak := 0);
      } else if SlProfit(v) <= guard.floor {
        guard := guard.(slStreak := if guard.slStreak + 1 > U8_MAX then U8_MAX else guard.slStreak + 1);
      } else {
        guard := guard.(slStreak := 0);
      }
      if !SlGrace(cfg, v) && guard.slStreak >= SlNeeded(cfg) {
        sells := sells.(closing := true);
        return Some(Order(100.0, StopLoss, false));
      }
      o := ProfitChecks(cfg, v, tp);
    }

    /** Every other event that touches a position in place. */
    method Apply(e: PosEvent)
      requires !e.Tick?
      modifies this`holdings, this`returned, this`tape, this`live, this`sells
      ensures State() == Touch(old(State()), e)
    {
      hide FromFloatNative, SellQty;
      match e
      case PoolUpdate(m) =>
        tape := tape.(pool := m);
      case JupiterMcap(m) =>
        tape := tape.(useJupiter := true, jupiter := Some(m));
      case LiveSnapshot(at, score, phase, profile, hold, bps, vel) =>
        live := live.(hasTape := true, prevBps := live.bps);
        live := live.(bps := bps, prevVel := vel, score := score, lastAt := at, phase := phase);
        live := live.(profile := profile, hold := hold);
      case SellFailed(pct, manual) =>
        if manual || pct >= 100.0 {
          sells := sells.(closing := false, pending := false);
        } else {
          sells := sells.(pending := false);
        }
      case PartialSold(pct, received) =>
        var qty := SellQty(holdings, pct);
        returned := returned + received;
        holdings := FromFloatNative(ToFloat(holdings) - qty);
        sells := sells.(pending := false);
    }
  }
}
