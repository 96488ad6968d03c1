/**
 The stop floor over a position's life. The stored field can dip, because trailing activation
 assigns it; what the stop check compares against, the field raised to the staircase of the
 session peak, never falls when the configured floors are ordered as in the defaults.
 */
module FloorProps {

  import opened ExitFilter
  import opened ExitEngine
  import opened PositionSpec
  import opened PositionProps

  /** The floor a stop check would use now: the stored field after the staircase step. */
  function Effective(cfg: Config, p: Pos): real { LockFloor(cfg, p.guard.floor, p.tape.peak) }

  function SmartFloorOf(cfg: Config, f: Profile): real {
    if cfg.v4.enabled then ProfileParams(cfg.v4, f).smartFloor else 5.0
  }

  function TrailFloorOf(cfg: Config, f: Profile): real {
    if cfg.v4.enabled then ProfileParams(cfg.v4, f).trailFloor else 35.0
  }

  /** The highest floor reachable without trailing or staircase. */
  function Cap(cfg: Config): real {
    MaxR(cfg.profitFloor,
         MaxR(MaxR(SmartFloorOf(cfg, Weak), SmartFloorOf(cfg, Neutral)), MaxR(SmartFloorOf(cfg, Strong), SmartFloorOf(cfg, Runner))))
  }

  /** Every profile's trailing floor is at least the initial floor and every smart-stop floor. */
  predicate FloorsOrdered(cfg: Config) {
    && Cap(cfg) <= TrailFloorOf(cfg, Weak) && Cap(cfg) <= TrailFloorOf(cfg, Neutral)
    && Cap(cfg) <= TrailFloorOf(cfg, Strong) && Cap(cfg) <= TrailFloorOf(cfg, Runner)
  }

  /** Before trailing, only the cap and the staircase have raised the floor. */
  predicate FloorInv(cfg: Config, p: Pos) {
    !p.guard.trailing ==> p.guard.floor <= LockFloor(cfg, Cap(cfg), p.tape.peak)
  }

  lemma StairMonotone(cfg: Config, floor: real, floor': real, peak: real, peak': real)
    requires floor <= floor' && peak <= peak'
    ensures LockFloor(cfg, floor, peak) <= LockFloor(cfg, floor', peak')
    ensures floor <= LockFloor(cfg, floor, peak)
    ensures LockFloor(cfg, LockFloor(cfg, floor, peak), peak') == LockFloor(cfg, floor, peak')
  {
  }

  /** Phases move thresholds, not floors. */
  lemma PhaseKeepsFloors(cfg: Config, l: Live)
    ensures TpFor(cfg, l).trailFloor == TrailFloorOf(cfg, l.profile)
    ensures TpFor(cfg, l).smartFloor == SmartFloorOf(cfg, l.profile)
  {
  }

  /** The profit checks after a floor `p.guard.floor` was locked at `p.tape.peak`. */
  lemma ProfitStageFloor(cfg: Config, v: View, tp: TpProfile, p: Pos)
    requires FloorInv(cfg, p)
    requires Cap(cfg) <= tp.trailFloor && tp.smartFloor <= Cap(cfg)
    ensures var p' := ProfitStage(cfg, v, tp, p).0;
            FloorInv(cfg, p') && Effective(cfg, p') >= Effective(cfg, p)
  {
    hide TrailingDue, CeilingDue, PartialStage, Cap, LockFloor;
    StairMonotone(cfg, Cap(cfg), tp.trailFloor, p.tape.peak, p.tape.peak);
    StairMonotone(cfg, tp.smartFloor, Cap(cfg), p.tape.peak, p.tape.peak);
    PartialStageKeeps(cfg, v, tp, p.(guard := UpgradeGuard(tp, v.profit, p.guard)));
    StairMonotone(cfg, p.guard.floor, MaxR(p.guard.floor, tp.trailFloor), p.tape.peak, p.tape.peak);
    StairMonotone(cfg, p.guard.floor, MaxR(p.guard.floor, tp.smartFloor), p.tape.peak, p.tape.peak);
    if !p.guard.trailing {
      StairMonotone(cfg, p.guard.floor, LockFloor(cfg, Cap(cfg), p.tape.peak), p.tape.peak, p.tape.peak);
    }
  }

  lemma PartialStageKeeps(cfg: Config, v: View, tp: TpProfile, p: Pos)
    ensures var p' := PartialStage(cfg, v, tp, p).0; p'.guard == p.guard && p'.tape == p.tape
  {
    hide TpSell;
  }

  lemma ExitStageFloor(cfg: Config, v: View, tp: TpProfile, kill: nat, p: Pos)
    requires FloorInv(cfg, p)
    requires Cap(cfg) <= tp.trailFloor && tp.smartFloor <= Cap(cfg)
    ensures var p' := ExitStage(cfg, v, tp, kill, p).0;
            FloorInv(cfg, p') && Effective(cfg, p') >= Effective(cfg, p)
  {
    hide TimeKillDue, Crash, DecayEvaluated, DecayBad, WithRecovery, ProfitStage, SlBad, SlGrace, Cap, LockFloor;
    RecoveryKeeps(cfg, v, p.entry, p.tape, p.live, p.guard);
    var d := DecayStep(cfg, v, p.entry, p.tape, p.live, p.guard);
    ProfitStageFloor(cfg, v, tp, p.(guard := d.(slStreak := SlCount(SlBad(cfg, v, d.floor), d.slStreak))));
  }

  /** The floor the stop check of a tick uses. */
  function StopFloor(cfg: Config, now: nat, p: Pos): real { Prepared(cfg, now, p).guard.floor }

  lemma PreparedFloor(cfg: Config, now: nat, p: Pos)
    ensures var q := Prepared(cfg, now, p);
            && q.guard == p.guard.(floor := LockFloor(cfg, p.guard.floor, q.tape.peak))
            && p.tape.peak <= q.tape.peak
  {
    hide Filtered, NoteSample, PushTick, RawMcap, PnlAt, Velocity, RefreshLive, LockFloor;
  }

  /** A tick checks against a floor that is not below the effective floor before it, nor above the one
      after it. */
  lemma {:induction false} TickFloor(cfg: Config, now: nat, p: Pos)
    requires FloorsOrdered(cfg) && FloorInv(cfg, p) && !p.sells.closing
    ensures var p' := TickStep(cfg, now, p).0;
            FloorInv(cfg, p') && Effective(cfg, p) <= StopFloor(cfg, now, p) <= Effective(cfg, p')
  {
    hide ObserveView, ObserveTape, RefreshLive, KillAfter, ExitStage, TpFor, LockFloor, Prepared;
    var v, q := ObserveView(cfg, now, p.entry, p.tape), Prepared(cfg, now, p);
    PreparedFloor(cfg, now, p);
    var peak := q.tape.peak;
    StairMonotone(cfg, p.guard.floor, p.guard.floor, p.tape.peak, peak);
    StairMonotone(cfg, p.guard.floor, p.guard.floor, peak, peak);
    if !p.guard.trailing {
      StairMonotone(cfg, p.guard.floor, LockFloor(cfg, Cap(cfg), p.tape.peak), peak, peak);
      StairMonotone(cfg, Cap(cfg), Cap(cfg), p.tape.peak, peak);
    }
    PhaseKeepsFloors(cfg, q.live);
    CapBounds(cfg, q.live.profile);
    ExitStageFloor(cfg, v, TpFor(cfg, q.live), KillAfter(cfg, v, q.entry, q.tape.highest), q);
  }

  lemma CapBounds(cfg: Config, f: Profile)
    requires FloorsOrdered(cfg)
    ensures SmartFloorOf(cfg, f) <= Cap(cfg) <= TrailFloorOf(cfg, f)
  {
  }

  lemma StepFloor(cfg: Config, p: Pos, e: PosEvent)
    requires FloorsOrdered(cfg) && FloorInv(cfg, p)
    ensures var p' := PosStep(cfg, p, e).0; FloorInv(cfg, p') && Effective(cfg, p) <= Effective(cfg, p')
  {
    hide TickStep, LockFloor;
    if e.Tick? && !p.sells.closing {
      TickFloor(cfg, e.now, p);
    } else if e.Tick? {
      ClosingTickIsIdle(cfg, p, e.now);
    } else {
      NotATick(cfg, p, e);
    }
  }

  lemma OpenFloor(cfg: Config, o: Opening)
    ensures FloorInv(cfg, Open(cfg, o)) && Open(cfg, o).guard.floor == cfg.profitFloor
  {
  }

  /** Over any run the effective stop floor never decreases: for any two moments of a position's life,
      the later floor is at least the earlier one, and the stop check of any tick uses a floor between
      its neighbours. */
  lemma {:induction false} FloorNeverDecreases(cfg: Config, o: Opening, es: seq<PosEvent>, k: nat)
    requires FloorsOrdered(cfg) && k <= |es|
    ensures var p := Open(cfg, o);
            FloorInv(cfg, PosRun(cfg, p, es))
            && Effective(cfg, PosRun(cfg, p, es[..k])) <= Effective(cfg, PosRun(cfg, p, es))
  {
    hide PosStep, FloorsOrdered, FloorInv, Effective, Open;
    var p := Open(cfg, o);
    if |es| == 0 {
      OpenFloor(cfg, o);
    } else {
      var n := |es| - 1;
      FloorNeverDecreases(cfg, o, es[..n], if k == |es| then n else k);
      StepFloor(cfg, PosRun(cfg, p, es[..n]), es[n]);
      assert k <= n ==> es[..n][..k] == es[..k];
      assert k == |es| ==> es[..k] == es;
      assert es[..n][..n] == es[..n];
    }
  }

  /** With the staircase on, the floor of every stop check covers the staircase of the peak. */
  lemma StopFloorCoversStaircase(cfg: Config, now: nat, p: Pos)
    requires StairOn(cfg)
    ensures var s := StairFloor(Prepared(cfg, now, p).tape.peak); s.Some? ==> StopFloor(cfg, now, p) >= s.value
    ensures var s := StairFloor(p.tape.peak); s.Some? ==> Effective(cfg, p) >= s.value
  {
    hide Filtered, NoteSample, PushTick, RawMcap, PnlAt, Velocity, RefreshLive;
    PreparedFloor(cfg, now, p);
  }

  /** The stop fires on this tick: the streak, counting this tick, has reached the confirm count. */
  predicate StopDue(cfg: Config, v: View, g: Guard) {
    !SlGrace(cfg, v) && SlCount(SlBad(cfg, v, g.floor), g.slStreak) >= SlNeeded(cfg)
  }

  /** No exit and no ceiling lock is due for the position as the exit checks see it. */
  predicate NothingDue(cfg: Config, v: View, kill: nat, q: Pos) {
    && !(DecayEvaluated(cfg, v, q.entry, q.live)
         && DecayStep(cfg, v, q.entry, q.tape, q.live, q.guard).decayStreak >= DecayNeeded(cfg, v))
    && !TimeKillDue(cfg, v, q, kill) && !Crash(cfg, v) && !StopDue(cfg, v, q.guard) && !CeilingDue(cfg, v, q.sells)
  }

  /** The guard of trailing activation, before the tick acts on it. */
  predicate WillTrail(cfg: Config, v: View, tp: TpProfile, kill: nat, q: Pos) {
    !q.guard.trailing && NothingDue(cfg, v, kill, q) && v.profit >= tp.trailActivate
  }

  predicate StairBelow(cfg: Config, peak: real, floor: real) {
    StairOn(cfg) && StairFloor(peak).Some? ==> StairFloor(peak).value < floor
  }

  lemma ProfitStageDrop(cfg: Config, v: View, tp: TpProfile, p: Pos)
    requires p.guard.floor == LockFloor(cfg, p.guard.floor, p.tape.peak)
    ensures var p' := ProfitStage(cfg, v, tp, p).0;
            var trails := !p.guard.trailing && !CeilingDue(cfg, v, p.sells) && v.profit >= tp.trailActivate;
            && p'.tape.peak == p.tape.peak
            && (p'.guard.floor < p.guard.floor <==> trails && tp.trailFloor < p.guard.floor)
            && (Effective(cfg, p') < p.guard.floor <==>
                trails && tp.trailFloor < p.guard.floor && StairBelow(cfg, p.tape.peak, p.guard.floor))
            && (trails ==> p'.guard.floor == tp.trailFloor)
  {
    hide CeilingDue, PartialStage;
    PartialStageKeeps(cfg, v, tp, p.(guard := UpgradeGuard(tp, v.profit, p.guard)));
  }

  lemma ExitStageDrop(cfg: Config, v: View, tp: TpProfile, kill: nat, p: Pos)
    requires p.guard.floor == LockFloor(cfg, p.guard.floor, p.tape.peak)
    ensures var p' := ExitStage(cfg, v, tp, kill, p).0;
            && p'.tape.peak == p.tape.peak
            && (p'.guard.floor < p.guard.floor <==> WillTrail(cfg, v, tp, kill, p) && tp.trailFloor < p.guard.floor)
            && (Effective(cfg, p') < p.guard.floor <==>
                WillTrail(cfg, v, tp, kill, p) && tp.trailFloor < p.guard.floor && StairBelow(cfg, p.tape.peak, p.guard.floor))
            && (WillTrail(cfg, v, tp, kill, p) ==> p'.guard.floor == tp.trailFloor)
  {
    hide Crash, DecayEvaluated, DecayBad, WithRecovery, ProfitStage, SlBad, SlGrace, SlNeeded, SlCount, LockFloor, StairBelow, CeilingDue, DecayNeeded;
    RecoveryKeeps(cfg, v, p.entry, p.tape, p.live, p.guard);
    var d := DecayStep(cfg, v, p.entry, p.tape, p.live, p.guard);
    ProfitStageDrop(cfg, v, tp, p.(guard := d.(slStreak := SlCount(SlBad(cfg, v, d.floor), d.slStreak))));
  }

  /** With no assumption on the configured floors, on the state the exit checks start from: a tick lowers
      the stored floor exactly when trailing is off, no exit and no ceiling lock is due, the profit has
      reached the activation threshold, and the profile's trailing floor is below the stored one; and it
      lowers the effective floor exactly when, besides, the staircase of the peak is below it too. */
  lemma {:induction false} FloorDropsIff(cfg: Config, now: nat, p: Pos)
    requires !p.sells.closing
    ensures var v, q, p' := ObserveView(cfg, now, p.entry, p.tape), Prepared(cfg, now, p), TickStep(cfg, now, p).0;
            var tp, kill := TpFor(cfg, q.live), KillAfter(cfg, v, q.entry, q.tape.highest);
            && (p'.guard.floor < q.guard.floor <==> WillTrail(cfg, v, tp, kill, q) && tp.trailFloor < q.guard.floor)
            && (Effective(cfg, p') < q.guard.floor <==>
                WillTrail(cfg, v, tp, kill, q) && tp.trailFloor < q.guard.floor && StairBelow(cfg, q.tape.peak, q.guard.floor))
  {
    hide ObserveView, ObserveTape, RefreshLive, KillAfter, ExitStage, TpFor, LockFloor, Prepared, WillTrail, StairBelow;
    var v, q := ObserveView(cfg, now, p.entry, p.tape), Prepared(cfg, now, p);
    PreparedFloor(cfg, now, p);
    StairMonotone(cfg, p.guard.floor, p.guard.floor, q.tape.peak, q.tape.peak);
    ExitStageDrop(cfg, v, TpFor(cfg, q.live), KillAfter(cfg, v, q.entry, q.tape.highest), q);
  }

  /** The same against the effective floor before the tick. */
  lemma {:induction false} EffectiveFloorFallsIff(cfg: Config, now: nat, p: Pos)
    requires !p.sells.closing
    ensures var v, q, p' := ObserveView(cfg, now, p.entry, p.tape), Prepared(cfg, now, p), TickStep(cfg, now, p).0;
            var tp, kill := TpFor(cfg, q.live), KillAfter(cfg, v, q.entry, q.tape.highest);
            Effective(cfg, p') < Effective(cfg, p) <==>
            WillTrail(cfg, v, tp, kill, q) && tp.trailFloor < Effective(cfg, p) && StairBelow(cfg, q.tape.peak, Effective(cfg, p))
  {
    hide ObserveView, ObserveTape, RefreshLive, KillAfter, ExitStage, TpFor, Prepared, WillTrail;
    var v, q := ObserveView(cfg, now, p.entry, p.tape), Prepared(cfg, now, p);
    PreparedFloor(cfg, now, p);
    StairMonotone(cfg, p.guard.floor, p.guard.floor, p.tape.peak, q.tape.peak);
    StairMonotone(cfg, p.guard.floor, p.guard.floor, q.tape.peak, q.tape.peak);
    hide StairFloor;
    ExitStageDrop(cfg, v, TpFor(cfg, q.live), KillAfter(cfg, v, q.entry, q.tape.highest), q);
  }
}
