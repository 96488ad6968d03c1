/** Properties of single ticks and of whole runs of one position. */
module PositionProps {

  import opened Common
  import opened ExitFilter
  import opened ExitEngine
  import opened Amounts
  import opened PositionSpec

  // ---- what one tick may queue ------------------------------------------------------

  /** How an order and the trigger flags move together. */
  predicate OrderMatches(s: Sells, s': Sells, o: Option<Order>) {
    match o
    case None => s' == s
    case Some(Order(pct, kind, urgent)) =>
      && !s.closing && (urgent <==> kind.SlCrash?)
      && (FullKind(kind) ==> pct == 100.0 && s' == s.(closing := true))
      && (kind.CeilingLock? ==> 1.0 <= pct <= 99.0 && !s.ceiling && !s.pending && s' == s.(ceiling := true, pending := true))
      && (kind.Tp? ==> 1 <= kind.n <= 5 && !s.pending && !TpHit(s, kind.n) && s' == MarkTp(s, kind.n))
  }

  lemma PartialStageOrder(cfg: Config, v: View, tp: TpProfile, p: Pos)
    requires !p.sells.closing
    ensures var r := PartialStage(cfg, v, tp, p); OrderMatches(p.sells, r.0.sells, r.1)
  {
    hide TpSell;
  }

  lemma ProfitStageOrder(cfg: Config, v: View, tp: TpProfile, p: Pos)
    requires !p.sells.closing
    ensures var r := ProfitStage(cfg, v, tp, p); OrderMatches(p.sells, r.0.sells, r.1)
  {
    hide PartialStage, TrailingDue, UpgradeGuard, CeilingGuard;
    PartialStageOrder(cfg, v, tp, p.(guard := UpgradeGuard(tp, v.profit, p.guard)));
  }

  /** Every tick queues at most one order, never while a full close is queued, never a second
      partial while one is in flight, and never a trigger that already fired. */
  lemma {:induction false} TickOrder(cfg: Config, now: nat, p: Pos)
    ensures var r := TickStep(cfg, now, p); OrderMatches(p.sells, r.0.sells, r.1)
  {
    hide ObserveView, ObserveTape, RefreshLive, DecayStep, KillAfter, TimeKillDue, Crash, DecayEvaluated, ProfitStage, SlBad;
    if !p.sells.closing {
      var v, q := ObserveView(cfg, now, p.entry, p.tape), Prepared(cfg, now, p);
      var g := DecayStep(cfg, v, q.entry, q.tape, q.live, q.guard);
      var g' := g.(slStreak := SlCount(SlBad(cfg, v, g.floor), g.slStreak));
      ProfitStageOrder(cfg, v, TpFor(cfg, q.live), q.(guard := g'));
    }
  }

  /** Exits come before profit taking: a partial is queued only on a tick on which no exit was due. */
  lemma ExitStagePriority(cfg: Config, v: View, tp: TpProfile, kill: nat, p: Pos)
    ensures var (p', o) := ExitStage(cfg, v, tp, kill, p);
            && (o.Some? && !FullKind(o.value.kind) ==>
                  !Crash(cfg, v) && !TimeKillDue(cfg, v, p, kill) && (SlGrace(cfg, v) || p'.guard.slStreak < SlNeeded(cfg)))
            && (Crash(cfg, v) ==> o.Some? && FullKind(o.value.kind) && o.value.pct == 100.0 && p'.sells.closing)
            && (TimeKillDue(cfg, v, p, kill) ==> o.Some? && FullKind(o.value.kind) && !o.value.urgent && p'.sells.closing)
  {
    hide Crash, DecayStep, DecayEvaluated, DecayNeeded, ProfitStage, SlBad, SlGrace, SlNeeded, SlCount;
    var d := DecayStep(cfg, v, p.entry, p.tape, p.live, p.guard);
    var q := p.(guard := d.(slStreak := SlCount(SlBad(cfg, v, d.floor), d.slStreak)));
    ProfitStageGuard(cfg, v, tp, q);
  }

  /** A crash always queues a 100% sell on the same tick, whatever profit levels are reached or partials
      are in flight, and a tick that queues a partial was not due for any exit. */
  lemma {:induction false} CrashAlwaysCloses(cfg: Config, now: nat, p: Pos)
    requires !p.sells.closing
    ensures var (p', o), v := TickStep(cfg, now, p), ObserveView(cfg, now, p.entry, p.tape);
            && (Crash(cfg, v) ==> o.Some? && FullKind(o.value.kind) && o.value.pct == 100.0 && p'.sells.closing)
            && (o.Some? && !FullKind(o.value.kind) ==> !Crash(cfg, v) && (SlGrace(cfg, v) || p'.guard.slStreak < SlNeeded(cfg)))
  {
    hide ObserveView, ObserveTape, RefreshLive, KillAfter, ExitStage, SlGrace, SlNeeded, TpFor, Crash, TimeKillDue, LockFloor;
    var v, q := ObserveView(cfg, now, p.entry, p.tape), Prepared(cfg, now, p);
    ExitStagePriority(cfg, v, TpFor(cfg, q.live), KillAfter(cfg, v, q.entry, q.tape.highest), q);
  }

  // ---- the tick buffer is a window ----------------------------------------------------

  /** The buffer after pushing the raw ticks in turn. */
  function Pushed(raws: seq<real>, max: nat): seq<real> {
    if raws == [] then [] else PushTick(Pushed(raws[..|raws| - 1], max), raws[|raws| - 1], max)
  }

  lemma {:induction false} ValidsSnoc(s: seq<real>, x: real)
    ensures Valids(s + [x]) == Valids(s) + if ValidMcap(x) then [x] else []
  {
    if s == [] {
      assert [] + [x] == [x] && [x][1..] == [];
    } else {
      assert (s + [x])[1..] == s[1..] + [x];
      ValidsSnoc(s[1..], x);
    }
  }

  lemma LastPushed(s: seq<real>, x: real, max: nat)
    ensures Last(s + if ValidMcap(x) then [x] else [], max) == PushTick(Last(s, max), x, max)
  {
    assert s + [] == s;
  }

  /** The buffer is the newest `max` valid raw ticks ever pushed, in order. */
  lemma {:induction false} BufferIsWindow(raws: seq<real>, max: nat)
    ensures Pushed(raws, max) == Last(Valids(raws), max)
  {
    if raws != [] {
      var n := |raws| - 1;
      BufferIsWindow(raws[..n], max);
      assert raws == raws[..n] + [raws[n]];
      ValidsSnoc(raws[..n], raws[n]);
      LastPushed(Valids(raws[..n]), raws[n], max);
      hide Valids, Last, PushTick, ValidMcap;
    }
  }

  // ---- confirm streaks are history ---------------------------------------------------

  /** Length of the unbroken run of `true` at the end. */
  function Tail(h: seq<bool>): (n: nat)
    ensures n <= |h|
  {
    if h == [] || !h[|h| - 1] then 0 else 1 + Tail(h[..|h| - 1])
  }

  lemma {:induction false} TailMeaning(h: seq<bool>, n: nat)
    ensures Tail(h) >= n <==> n <= |h| && forall i :: |h| - n <= i < |h| ==> h[i]
  {
    if h != [] && n > 0 {
      TailMeaning(h[..|h| - 1], n - 1);
    }
  }

  function Capped(n: nat): nat { if n > U8_MAX then U8_MAX else n }

  predicate EarlierExit(o: Option<Order>) {
    o.Some? && (o.value.kind.MomentumDecay? || o.value.kind.TimeKill? || o.value.kind.SlCrash?)
  }

  /** The tick got as far as the stop check: the position was open and no earlier exit fired. */
  predicate ReachesStop(cfg: Config, now: nat, p: Pos) {
    !p.sells.closing && !EarlierExit(TickStep(cfg, now, p).1)
  }

  /** Whether this event is an evaluated stop tick, and if so whether the worse of filtered and raw
      PnL is at or below the locked floor, out of grace. */
  function SlVerdict(cfg: Config, p: Pos, e: PosEvent): Option<bool> {
    if e.Tick? && ReachesStop(cfg, e.now, p) then
      Some(SlBad(cfg, ObserveView(cfg, e.now, p.entry, p.tape), Prepared(cfg, e.now, p).guard.floor))
    else None
  }

  function SlHistory(cfg: Config, p: Pos, es: seq<PosEvent>): seq<bool> {
    if es == [] then []
    else
      var n := |es| - 1;
      var b := SlVerdict(cfg, PosRun(cfg, p, es[..n]), es[n]);
      SlHistory(cfg, p, es[..n]) + if b.Some? then [b.value] else []
  }

  /** Whether this event is a tick whose decay block runs, and if so whether it is a bad one. */
  function DecayVerdict(cfg: Config, p: Pos, e: PosEvent): Option<bool> {
    if !e.Tick? || p.sells.closing then None
    else
      var v, q := ObserveView(cfg, e.now, p.entry, p.tape), Prepared(cfg, e.now, p);
      if DecayEvaluated(cfg, v, q.entry, q.live) then
        Some(DecayBad(cfg, v, q.entry, q.live, WithRecovery(cfg, v, q.entry, q.tape, q.live, q.guard)))
      else None
  }

  function DecayHistory(cfg: Config, p: Pos, es: seq<PosEvent>): seq<bool> {
    if es == [] then []
    else
      var n := |es| - 1;
      var b := DecayVerdict(cfg, PosRun(cfg, p, es[..n]), es[n]);
      DecayHistory(cfg, p, es[..n]) + if b.Some? then [b.value] else []
  }

  /** The profit checks leave both streaks and the flush fields alone, and never close on a stop. */
  lemma ProfitStageGuard(cfg: Config, v: View, tp: TpProfile, p: Pos)
    ensures var r := ProfitStage(cfg, v, tp, p);
            && r.0.guard.slStreak == p.guard.slStreak && r.0.guard.decayStreak == p.guard.decayStreak
            && r.0.guard.flushActive == p.guard.flushActive && r.0.guard.flushLow == p.guard.flushLow
            && r.0.tape.highest == p.tape.highest && r.0.tape.peak == p.tape.peak && r.0.entry == p.entry
            && (r.1.Some? ==> r.1.value.kind.CeilingLock? || r.1.value.kind.Tp? || r.1.value.kind.TrailingExit?)
  {
    hide TrailingDue, TpSell, CeilingDue, TrailPct;
  }

  lemma StopStageStreaks(cfg: Config, v: View, tp: TpProfile, p: Pos)
    ensures var (p', o) := StopStage(cfg, v, tp, p);
            && p'.guard.slStreak == SlCount(SlBad(cfg, v, p.guard.floor), p.guard.slStreak)
            && p'.guard.decayStreak == p.guard.decayStreak && !EarlierExit(o)
            && (o.Some? && o.value.kind.StopLoss? <==> !SlGrace(cfg, v) && p'.guard.slStreak >= SlNeeded(cfg))
  {
    hide ProfitStage, SlBad, SlGrace, SlNeeded;
    ProfitStageGuard(cfg, v, tp, p.(guard := p.guard.(slStreak := SlCount(SlBad(cfg, v, p.guard.floor), p.guard.slStreak))));
  }

  lemma ExitStageStreaks(cfg: Config, v: View, tp: TpProfile, kill: nat, p: Pos)
    ensures var (p', o) := ExitStage(cfg, v, tp, kill, p);
            var r := WithRecovery(cfg, v, p.entry, p.tape, p.live, p.guard);
            var eval := DecayEvaluated(cfg, v, p.entry, p.live);
            && p'.guard.slStreak == (if EarlierExit(o) then p.guard.slStreak else SlCount(SlBad(cfg, v, p.guard.floor), p.guard.slStreak))
            && p'.guard.decayStreak ==
               (if !eval then p.guard.decayStreak
                else if DecayBad(cfg, v, p.entry, p.live, r) then SatAdd8(p.guard.decayStreak, 1) else 0)
            && (o.Some? && o.value.kind.StopLoss? <==> !EarlierExit(o) && !SlGrace(cfg, v) && p'.guard.slStreak >= SlNeeded(cfg))
            && (o.Some? && o.value.kind.MomentumDecay? <==> eval && p'.guard.decayStreak >= DecayNeeded(cfg, v))
  {
    hide TimeKillDue, Crash, DecayEvaluated, DecayBad, WithRecovery, StopStage, SlBad, SlGrace, SlNeeded, DecayNeeded;
    RecoveryKeeps(cfg, v, p.entry, p.tape, p.live, p.guard);
    StopStageStreaks(cfg, v, tp, p.(guard := DecayStep(cfg, v, p.entry, p.tape, p.live, p.guard)));
  }

  /** What a tick does to the streaks, and exactly when it exits on one of them. */
  lemma {:induction false} TickStreaks(cfg: Config, now: nat, p: Pos)
    ensures var (p', o) := TickStep(cfg, now, p);
            var sl, dc := SlVerdict(cfg, p, Tick(now)), DecayVerdict(cfg, p, Tick(now));
            && p'.guard.slStreak == (if sl.Some? then SlCount(sl.value, p.guard.slStreak) else p.guard.slStreak)
            && p'.guard.decayStreak == (if dc.Some? then (if dc.value then SatAdd8(p.guard.decayStreak, 1) else 0) else p.guard.decayStreak)
            && (o.Some? && o.value.kind.StopLoss? <==>
                sl.Some? && !SlGrace(cfg, ObserveView(cfg, now, p.entry, p.tape)) && p'.guard.slStreak >= SlNeeded(cfg))
            && (o.Some? && o.value.kind.MomentumDecay? <==>
                dc.Some? && p'.guard.decayStreak >= DecayNeeded(cfg, ObserveView(cfg, now, p.entry, p.tape)))
  {
    hide ObserveView, ObserveTape, RefreshLive, KillAfter, ExitStage, DecayEvaluated, DecayBad, WithRecovery, SlBad, SlGrace, LockFloor, SlNeeded, DecayNeeded, TpFor;
    if !p.sells.closing {
      var v, q := ObserveView(cfg, now, p.entry, p.tape), Prepared(cfg, now, p);
      ExitStageStreaks(cfg, v, TpFor(cfg, q.live), KillAfter(cfg, v, q.entry, q.tape.highest), q);
    }
  }

  lemma RecoveryKeeps(cfg: Config, v: View, e: Entry, t: Tape, l: Live, g: Guard)
    ensures var r := WithRecovery(cfg, v, e, t, l, g);
            r.slStreak == g.slStreak && r.decayStreak == g.decayStreak && r.floor == g.floor && r.trailing == g.trailing
  {
    hide RecoveryScore, LiteMetrics, DrawdownPct;
  }

  lemma {:induction false} TailSnoc(h: seq<bool>, b: bool)
    ensures Tail(h + [b]) == if b then Tail(h) + 1 else 0
  {
    assert (h + [b])[..|h|] == h;
  }

  /** Over any run, ticks or not, failed closes included, the two counters are the length (capped at
      255) of the latest unbroken run of bad evaluated ticks. */
  lemma {:induction false} StreaksAreHistory(cfg: Config, p: Pos, es: seq<PosEvent>)
    requires p.guard.slStreak == 0 && p.guard.decayStreak == 0
    ensures PosRun(cfg, p, es).guard.slStreak == Capped(Tail(SlHistory(cfg, p, es)))
    ensures PosRun(cfg, p, es).guard.decayStreak == Capped(Tail(DecayHistory(cfg, p, es)))
  {
    if es != [] {
      var n := |es| - 1;
      StreaksAreHistory(cfg, p, es[..n]);
      var q := PosRun(cfg, p, es[..n]);
      StepStreaks(cfg, q, es[n], SlHistory(cfg, p, es[..n]), DecayHistory(cfg, p, es[..n]));
    }
  }

  lemma StepStreaks(cfg: Config, p: Pos, e: PosEvent, sl: seq<bool>, dc: seq<bool>)
    requires p.guard.slStreak == Capped(Tail(sl)) && p.guard.decayStreak == Capped(Tail(dc))
    ensures var g, s, d := PosStep(cfg, p, e).0.guard, SlVerdict(cfg, p, e), DecayVerdict(cfg, p, e);
            && g.slStreak == Capped(Tail(sl + if s.Some? then [s.value] else []))
            && g.decayStreak == Capped(Tail(dc + if d.Some? then [d.value] else []))
  {
    hide TickStep, SlVerdict, DecayVerdict;
    var s, d := SlVerdict(cfg, p, e), DecayVerdict(cfg, p, e);
    if s.Some? { TailSnoc(sl, s.value); } else { assert sl + [] == sl; }
    if d.Some? { TailSnoc(dc, d.value); } else { assert dc + [] == dc; }
    if e.Tick? { TickStreaks(cfg, e.now, p); } else { NotATick(cfg, p, e); }
  }

  lemma TouchKeepsTape(p: Pos, e: PosEvent)
    requires !e.Tick?
    ensures var p' := Touch(p, e);
            && p'.guard == p.guard && p'.entry == p.entry && p'.tape.highest == p.tape.highest
            && p'.tape.peak == p.tape.peak && p'.tape.ticks == p.tape.ticks
  {
    hide AfterFailure;
    if e.PartialSold? {
      hide Touch;
      PartialKeeps(p, e);
    }
  }

  lemma TouchKeepsSells(p: Pos, e: PosEvent)
    requires !e.Tick?
    ensures var p' := Touch(p, e);
            && p'.sells == p.sells.(closing := p'.sells.closing, pending := p'.sells.pending)
            && (!e.PartialSold? ==> p'.holdings == p.holdings && p'.returned == p.returned)
  {
    if e.PartialSold? {
      hide Touch;
      PartialKeeps(p, e);
    }
  }

  lemma PartialKeeps(p: Pos, e: PosEvent)
    requires e.PartialSold?
    ensures var p' := Touch(p, e);
            p'.guard == p.guard && p'.entry == p.entry && p'.tape == p.tape && p'.sells == p.sells.(pending := false)
  {
    hide FromFloatNative, SellQty;
  }

  lemma TouchKeeps(p: Pos, e: PosEvent)
    requires !e.Tick?
    ensures var p' := Touch(p, e);
            && p'.guard == p.guard && p'.entry == p.entry && p'.tape.highest == p.tape.highest
            && p'.tape.peak == p.tape.peak && p'.tape.ticks == p.tape.ticks
            && p'.sells == p.sells.(closing := p'.sells.closing, pending := p'.sells.pending)
            && (!e.PartialSold? ==> p'.holdings == p.holdings && p'.returned == p.returned)
  {
    hide Touch;
    TouchKeepsTape(p, e);
    TouchKeepsSells(p, e);
  }

  lemma NotATick(cfg: Config, p: Pos, e: PosEvent)
    requires !e.Tick?
    ensures SlVerdict(cfg, p, e).None? && DecayVerdict(cfg, p, e).None?
    ensures PosStep(cfg, p, e) == (Touch(p, e), None)
    ensures var p' := Touch(p, e);
            && p'.guard == p.guard && p'.entry == p.entry && p'.tape.highest == p.tape.highest
            && p'.tape.peak == p.tape.peak && p'.tape.ticks == p.tape.ticks
  {
    hide Touch, TickStep, ObserveView;
    TouchKeeps(p, e);
  }

  lemma ClosingTickIsIdle(cfg: Config, p: Pos, now: nat)
    requires p.sells.closing
    ensures DecayVerdict(cfg, p, Tick(now)).None? && SlVerdict(cfg, p, Tick(now)).None? && TickStep(cfg, now, p) == (p, None)
  {
  }

  predicate Stops(cfg: Config, p: Pos, now: nat) {
    var o := TickStep(cfg, now, p).1; o.Some? && o.value.kind.StopLoss?
  }

  predicate Decays(cfg: Config, p: Pos, now: nat) {
    var o := TickStep(cfg, now, p).1; o.Some? && o.value.kind.MomentumDecay?
  }

  /** The number of confirming ticks as configured, before the cast to u8. */
  function ConfirmTicks(cfg: Config): nat { MaxN(cfg.slConfirm, 1) }

  lemma HistoryStep(cfg: Config, p: Pos, es: seq<PosEvent>, e: PosEvent)
    ensures var q := PosRun(cfg, p, es);
            var sl, dc := SlVerdict(cfg, q, e), DecayVerdict(cfg, q, e);
            && SlHistory(cfg, p, es + [e]) == SlHistory(cfg, p, es) + (if sl.Some? then [sl.value] else [])
            && DecayHistory(cfg, p, es + [e]) == DecayHistory(cfg, p, es) + (if dc.Some? then [dc.value] else [])
            && PosRun(cfg, p, es + [e]) == PosStep(cfg, q, e).0
  {
    hide SlVerdict, DecayVerdict, PosStep;
    assert (es + [e])[..|es|] == es;
  }

  /** A plain stop-loss exit happens exactly when this tick's stop check runs and, counting this tick,
      the last `sl_confirm_ticks` evaluated ticks were all at or below the floor and out of grace.
      This is what the configuration promises; it holds for 1..255 (0 counts as 1). */
  lemma {:induction false} StopNeedsConfirmation(cfg: Config, p: Pos, es: seq<PosEvent>, now: nat)
    requires p.guard.slStreak == 0 && p.guard.decayStreak == 0 && ConfirmTicks(cfg) <= 255
    ensures var q, h := PosRun(cfg, p, es), SlHistory(cfg, p, es + [Tick(now)]);
            Stops(cfg, q, now) <==>
            SlVerdict(cfg, q, Tick(now)).Some? && Tail(h) >= ConfirmTicks(cfg)
  {
    var q := PosRun(cfg, p, es);
    hide TickStep, DecayVerdict, SlGrace, ObserveView, SlVerdict, PosRun, SlHistory, DecayHistory, Tail;
    StreaksAreHistory(cfg, p, es + [Tick(now)]);
    HistoryStep(cfg, p, es, Tick(now));
    TickStreaks(cfg, now, q);
    BadIsOutOfGrace(cfg, q, now);
    var sl := SlVerdict(cfg, q, Tick(now));
    if sl.Some? { TailSnoc(SlHistory(cfg, p, es), sl.value); }
  }

  lemma BadIsOutOfGrace(cfg: Config, p: Pos, now: nat)
    ensures SlVerdict(cfg, p, Tick(now)) == Some(true) ==> !SlGrace(cfg, ObserveView(cfg, now, p.entry, p.tape))
  {
    hide ObserveView, TickStep;
  }

  /** The guard on the u8 counter means the configured count exactly up to 255: the cast keeps the
      low eight bits of `sl_confirm_ticks`. */
  lemma ConfirmFitsIff(cfg: Config)
    ensures (forall n: nat :: Capped(n) >= SlNeeded(cfg) <==> n >= ConfirmTicks(cfg)) <==> ConfirmTicks(cfg) <= 255
  {
    var c, needed := ConfirmTicks(cfg), SlNeeded(cfg);
    if c > 255 {
      assert Capped(needed) >= needed && !(needed >= c);
    }
  }

  /** At every positive multiple of 256 the stop fires on every tick out of grace that no earlier exit
      took, whatever the floor and the history: healthy ticks included. */
  lemma {:induction false} HealthyTickStops(cfg: Config, now: nat, p: Pos)
    requires cfg.slConfirm > 0 && cfg.slConfirm % 256 == 0
    ensures Stops(cfg, p, now) <==> ReachesStop(cfg, now, p) && !SlGrace(cfg, ObserveView(cfg, now, p.entry, p.tape))
  {
    hide TickStep, DecayVerdict, SlGrace, ObserveView, SlBad, Prepared;
    TickStreaks(cfg, now, p);
  }

  /** A momentum-decay exit happens exactly when the decay block runs and, counting this tick, at least
      the required number of consecutive evaluated ticks were decaying and not recovering. */
  lemma {:induction false} DecayNeedsConfirmation(cfg: Config, p: Pos, es: seq<PosEvent>, now: nat)
    requires p.guard.slStreak == 0 && p.guard.decayStreak == 0
    ensures var q, h := PosRun(cfg, p, es), DecayHistory(cfg, p, es + [Tick(now)]);
            var needed := DecayNeeded(cfg, ObserveView(cfg, now, q.entry, q.tape));
            Decays(cfg, q, now) <==> DecayVerdict(cfg, q, Tick(now)).Some? && Tail(h) >= needed
  {
    var q := PosRun(cfg, p, es);
    hide TickStep, DecayVerdict, SlVerdict, SlGrace, ObserveView, EarlyGreen, PosRun, SlHistory, DecayHistory, Tail;
    StreaksAreHistory(cfg, p, es + [Tick(now)]);
    HistoryStep(cfg, p, es, Tick(now));
    TickStreaks(cfg, now, q);
  }
}
