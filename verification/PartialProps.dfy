/** Partial sells over a position's life: each trigger once, in order, and every token accounted for. */
module PartialProps {

  import opened Common
  import opened ExitFilter
  import opened ExitEngine
  import opened Amounts
  import opened PositionSpec
  import opened PositionProps

  function CountKind(os: seq<Order>, k: Kind): nat {
    if os == [] then 0 else CountKind(os[..|os| - 1], k) + AsNat(os[|os| - 1].kind == k)
  }

  function CountPartials(os: seq<Order>): nat {
    if os == [] then 0 else CountPartials(os[..|os| - 1]) + AsNat(!FullKind(os[|os| - 1].kind))
  }

  function Triggered(s: Sells): nat { AsNat(s.tp1) + AsNat(s.tp2) + AsNat(s.tp3) + AsNat(s.tp4) + AsNat(s.tp5) + AsNat(s.ceiling) }

  lemma MarkTpFlags(s: Sells, k: nat, n: nat)
    requires 1 <= k <= 5 && 1 <= n <= 5
    ensures TpHit(MarkTp(s, k), n) == (TpHit(s, n) || n == k)
    ensures MarkTp(s, k).ceiling == s.ceiling
  {
    if k == 1 { } else if k == 2 { } else if k == 3 { } else if k == 4 { } else { }
  }

  lemma CeilingCount(s: Sells, n: nat)
    requires !s.ceiling && 1 <= n <= 5
    ensures var s' := s.(ceiling := true, pending := true);
            Triggered(s') == Triggered(s) + 1 && TpHit(s', n) == TpHit(s, n)
  {
  }

  lemma MarkTpCount(s: Sells, k: nat)
    requires 1 <= k <= 5 && !TpHit(s, k)
    ensures Triggered(MarkTp(s, k)) == Triggered(s) + 1
  {
    if k == 1 { } else if k == 2 { } else if k == 3 { } else if k == 4 { } else { }
  }

  /** Flight flags are not triggers. */
  lemma FlagsAreNotTriggers(s: Sells, closing: bool, pending: bool, n: nat)
    requires 1 <= n <= 5
    ensures var s' := s.(closing := closing, pending := pending);
            TpHit(s', n) == TpHit(s, n) && Triggered(s') == Triggered(s) && s'.ceiling == s.ceiling
  {
  }

  lemma OrderMovesTriggers(s: Sells, s': Sells, o: Option<Order>, n: nat)
    requires OrderMatches(s, s', o) && 1 <= n <= 5
    ensures AsNat(TpHit(s', n)) == AsNat(TpHit(s, n)) + AsNat(o.Some? && o.value.kind == Tp(n))
    ensures AsNat(s'.ceiling) == AsNat(s.ceiling) + AsNat(o.Some? && o.value.kind.CeilingLock?)
    ensures Triggered(s') == Triggered(s) + AsNat(o.Some? && !FullKind(o.value.kind))
  {
    if o.None? {
    } else if o.value.kind.Tp? {
      hide MarkTp, TpHit, Triggered;
      MarkTpFlags(s, o.value.kind.n, n);
      MarkTpCount(s, o.value.kind.n);
    } else if o.value.kind.CeilingLock? {
      hide MarkTp, TpHit, Triggered;
      CeilingCount(s, n);
    } else {
      hide MarkTp, TpHit, Triggered;
      FlagsAreNotTriggers(s, s'.closing, s'.pending, n);
    }
  }

  lemma OrdersSnoc(cfg: Config, p: Pos, es: seq<PosEvent>, k: Kind)
    requires es != []
    ensures var n := |es| - 1;
            var o, before := PosStep(cfg, PosRun(cfg, p, es[..n]), es[n]).1, Orders(cfg, p, es[..n]);
            && CountKind(Orders(cfg, p, es), k) == CountKind(before, k) + AsNat(o.Some? && o.value.kind == k)
            && CountPartials(Orders(cfg, p, es)) == CountPartials(before) + AsNat(o.Some? && !FullKind(o.value.kind))
  {
    hide PosStep, FullKind;
    var n := |es| - 1;
    var o, before := PosStep(cfg, PosRun(cfg, p, es[..n]), es[n]).1, Orders(cfg, p, es[..n]);
    if o.Some? {
      assert (before + [o.value])[..|before|] == before;
    } else {
      assert before + [] == before;
    }
  }

  lemma OpenUntriggered(cfg: Config, o: Opening, n: nat)
    requires 1 <= n <= 5
    ensures var s := Open(cfg, o).sells; !TpHit(s, n) && !s.ceiling && Triggered(s) == 0 && PrefixHit(s)
  {
    hide FromFloatNative, PushTick, ToFloat;
  }

  lemma AtMostSix(s: Sells)
    ensures Triggered(s) <= 6
  {
  }

  /** Over any run, failures included, each take-profit has been queued exactly as often as its flag
      says, so at most once. */
  lemma {:induction false} EachTpOnce(cfg: Config, o: Opening, es: seq<PosEvent>, n: nat)
    requires 1 <= n <= 5
    ensures CountKind(Orders(cfg, Open(cfg, o), es), Tp(n)) == AsNat(TpHit(PosRun(cfg, Open(cfg, o), es).sells, n)) <= 1
  {
    if es == [] {
      OpenUntriggered(cfg, o, n);
    } else {
      hide PosStep, Orders, CountKind, Open, TpHit, FullKind;
      var m := |es| - 1;
      var p, q := Open(cfg, o), PosRun(cfg, Open(cfg, o), es[..m]);
      EachTpOnce(cfg, o, es[..m], n);
      OrdersSnoc(cfg, p, es, Tp(n));
      StepTp(cfg, q, es[m], n);
    }
  }

  lemma StepTp(cfg: Config, p: Pos, e: PosEvent, n: nat)
    requires 1 <= n <= 5
    ensures var (p', o) := PosStep(cfg, p, e);
            && AsNat(TpHit(p'.sells, n)) == AsNat(TpHit(p.sells, n)) + AsNat(o.Some? && o.value.kind == Tp(n))
            && AsNat(p'.sells.ceiling) == AsNat(p.sells.ceiling) + AsNat(o.Some? && o.value.kind.CeilingLock?)
            && Triggered(p'.sells) == Triggered(p.sells) + AsNat(o.Some? && !FullKind(o.value.kind))
  {
    hide TickStep, Touch, OrderMatches, TpHit, Triggered;
    var (p', o) := PosStep(cfg, p, e);
    if e.Tick? {
      TickOrder(cfg, e.now, p);
      OrderMovesTriggers(p.sells, p'.sells, o, n);
    } else {
      TouchKeeps(p, e);
      FlagsAreNotTriggers(p.sells, p'.sells.closing, p'.sells.pending, n);
    }
  }

  /** The ceiling lock is queued at most once, and at most six partial sells are ever queued. */
  lemma {:induction false} AtMostSixPartials(cfg: Config, o: Opening, es: seq<PosEvent>)
    ensures var s, os := PosRun(cfg, Open(cfg, o), es).sells, Orders(cfg, Open(cfg, o), es);
            CountKind(os, CeilingLock) == AsNat(s.ceiling) && CountPartials(os) == Triggered(s) <= 6
  {
    hide PosStep, Open, TpHit, FullKind, Triggered;
    AtMostSix(PosRun(cfg, Open(cfg, o), es).sells);
    if es == [] {
      OpenUntriggered(cfg, o, 1);
    } else {
      hide Orders, CountKind, CountPartials;
      var m := |es| - 1;
      AtMostSixPartials(cfg, o, es[..m]);
      OrdersSnoc(cfg, Open(cfg, o), es, CeilingLock);
      StepTp(cfg, PosRun(cfg, Open(cfg, o), es[..m]), es[m], 1);
    }
  }

  // ---- take-profits form a prefix --------------------------------------------------------

  predicate PrefixHit(s: Sells) {
    (s.tp5 ==> s.tp4) && (s.tp4 ==> s.tp3) && (s.tp3 ==> s.tp2) && (s.tp2 ==> s.tp1)
  }

  predicate Nondecreasing(tp: TpProfile) {
    tp.tp1Pct <= tp.tp2Pct <= tp.tp3Pct <= tp.tp4Pct <= tp.tp5Pct
  }

  /** Firing the next take-profit of a profile. */
  function FireNext(tp: TpProfile, profit: real, s: Sells): Sells {
    var n := NextTp(tp, profit, s); if n == 0 then s else MarkTp(s, n)
  }

  function FirstHit(k: nat): Sells { Sells(k >= 1, k >= 2, k >= 3, k >= 4, k >= 5, false, false, false) }

  /** Nondecreasing thresholds are exactly what keeps the triggered take-profits a prefix TP1..TPk. */
  lemma PrefixIff(tp: TpProfile)
    ensures (forall s, profit :: PrefixHit(s) ==> PrefixHit(FireNext(tp, profit, s))) <==> Nondecreasing(tp)
  {
    if !Nondecreasing(tp) {
      var k, profit :=
        if tp.tp2Pct < tp.tp1Pct then 0 else if tp.tp3Pct < tp.tp2Pct then 1 else if tp.tp4Pct < tp.tp3Pct then 2 else 3,
        if tp.tp2Pct < tp.tp1Pct then tp.tp2Pct else if tp.tp3Pct < tp.tp2Pct then tp.tp3Pct
        else if tp.tp4Pct < tp.tp3Pct then tp.tp4Pct else tp.tp5Pct;
      SkipsALevel(tp, k, profit);
      assert PrefixHit(FirstHit(k)) && !PrefixHit(FireNext(tp, profit, FirstHit(k)));
    }
  }

  /** With a lower threshold behind a higher one, a profit between them skips a level. */
  lemma SkipsALevel(tp: TpProfile, k: nat, profit: real)
    requires k <= 3 && TpPct(tp, k + 2) <= profit < TpPct(tp, k + 1)
    ensures PrefixHit(FirstHit(k)) && NextTp(tp, profit, FirstHit(k)) >= k + 2
    ensures !PrefixHit(FireNext(tp, profit, FirstHit(k)))
  {
  }

  predicate ThresholdsOrdered(cfg: Config) {
    if cfg.v4.enabled then
      Nondecreasing(cfg.v4.weak) && Nondecreasing(cfg.v4.neutral) && Nondecreasing(cfg.v4.strong) && Nondecreasing(cfg.v4.runner)
    else Nondecreasing(cfg.plain)
  }

  lemma TpForOrdered(cfg: Config, l: Live)
    requires ThresholdsOrdered(cfg)
    ensures Nondecreasing(TpFor(cfg, l))
  {
  }

  lemma NextTpPrefix(tp: TpProfile, profit: real, s: Sells)
    requires Nondecreasing(tp) && PrefixHit(s)
    ensures PrefixHit(FireNext(tp, profit, s))
  {
  }

  lemma FlightPrefix(s: Sells, closing: bool, pending: bool, ceiling: bool)
    ensures PrefixHit(s.(closing := closing, pending := pending, ceiling := ceiling)) == PrefixHit(s)
  {
  }

  lemma ProfitStagePrefix(cfg: Config, v: View, tp: TpProfile, p: Pos)
    requires Nondecreasing(tp) && PrefixHit(p.sells)
    ensures PrefixHit(ProfitStage(cfg, v, tp, p).0.sells)
  {
    hide TrailingDue, CeilingDue, TpSell, UpgradeGuard, CeilingGuard, PrefixHit, Nondecreasing, NextTp, MarkTp;
    NextTpPrefix(tp, v.profit, p.sells);
    FlightPrefix(p.sells, p.sells.closing, true, true);
    FlightPrefix(p.sells, true, p.sells.pending, p.sells.ceiling);
  }

  lemma ClosePrefix(s: Sells)
    ensures PrefixHit(s.(closing := true)) == PrefixHit(s)
  {
  }

  lemma ExitStagePrefix(cfg: Config, v: View, tp: TpProfile, kill: nat, p: Pos)
    requires Nondecreasing(tp) && PrefixHit(p.sells)
    ensures PrefixHit(ExitStage(cfg, v, tp, kill, p).0.sells)
  {
    hide DecayStep, DecayEvaluated, DecayNeeded, TimeKillDue, Crash, ProfitStage, SlBad, SlGrace, SlNeeded, SlCount, Nondecreasing, PrefixHit;
    ClosePrefix(p.sells);
    var d := DecayStep(cfg, v, p.entry, p.tape, p.live, p.guard);
    ProfitStagePrefix(cfg, v, tp, p.(guard := d.(slStreak := SlCount(SlBad(cfg, v, d.floor), d.slStreak))));
  }

  lemma StepPrefix(cfg: Config, p: Pos, e: PosEvent)
    requires ThresholdsOrdered(cfg) && PrefixHit(p.sells)
    ensures PrefixHit(PosStep(cfg, p, e).0.sells)
  {
    hide ObserveView, ObserveTape, RefreshLive, KillAfter, TpFor, ExitStage, ThresholdsOrdered;
    if e.Tick? && !p.sells.closing {
      var v, q := ObserveView(cfg, e.now, p.entry, p.tape), Prepared(cfg, e.now, p);
      TpForOrdered(cfg, q.live);
      ExitStagePrefix(cfg, v, TpFor(cfg, q.live), KillAfter(cfg, v, q.entry, q.tape.highest), q);
    }
  }

  /** Across profile and phase changes and failed sells, the triggered take-profits are always TP1..TPk. */
  lemma {:induction false} TakeProfitsFormPrefix(cfg: Config, o: Opening, es: seq<PosEvent>)
    requires ThresholdsOrdered(cfg)
    ensures PrefixHit(PosRun(cfg, Open(cfg, o), es).sells)
  {
    hide PosStep, PrefixHit, ThresholdsOrdered, Open;
    if es == [] {
      OpenUntriggered(cfg, o, 1);
    } else {
      TakeProfitsFormPrefix(cfg, o, es[..|es| - 1]);
      StepPrefix(cfg, PosRun(cfg, Open(cfg, o), es[..|es| - 1]), es[|es| - 1]);
    }
  }

  // ---- every token is accounted for --------------------------------------------------------

  /** Raw units sold in the successful partial sells of a run: each time the named percentage of what was
      held. */
  function Sold(cfg: Config, p: Pos, es: seq<PosEvent>): real {
    if es == [] then 0.0
    else
      var n := |es| - 1;
      Sold(cfg, p, es[..n])
      + if es[n].PartialSold? then PosRun(cfg, p, es[..n]).holdings as real * es[n].pct / 100.0 else 0.0
  }

  function Fills(es: seq<PosEvent>): nat {
    if es == [] then 0 else Fills(es[..|es| - 1]) + AsNat(es[|es| - 1].PartialSold?)
  }

  /** The share of some holdings, and what it leaves: names for proofs in which the product is not needed. */
  function Share(holdings: nat, pct: real): real { holdings as real * pct / 100.0 }

  function Keep(pct: real): real { (100.0 - pct) / 100.0 }

  lemma ShareFits(holdings: nat, pct: real)
    requires 0.0 <= pct <= 100.0
    ensures 0.0 <= Share(holdings, pct) <= holdings as real && 0.0 <= Keep(pct) <= 1.0
    ensures holdings as real - Share(holdings, pct) == holdings as real * Keep(pct) == holdings as real * (100.0 - pct) / 100.0
  {
    ScaleMono(0.0, pct, holdings as real);
    ScaleMono(pct, 100.0, holdings as real);
  }

  lemma Asked(holdings: nat, pct: real)
    ensures (ToFloat(holdings) - SellQty(holdings, pct)) * SCALE == holdings as real - Share(holdings, pct)
  {
    var h := ToFloat(holdings);
    assert h * SCALE == holdings as real;
    assert (h - h * (pct / 100.0)) * SCALE == h * SCALE - (h * SCALE) * (pct / 100.0);
  }

  /** After a partial sell of `pct` percent the position holds the other part of what it held, to half a raw
      unit. */
  lemma OnePartial(holdings: nat, pct: real)
    requires 0.0 <= pct <= 100.0 && holdings <= U64_MAX
    ensures var left := FromFloatNative(ToFloat(holdings) - SellQty(holdings, pct));
            left <= U64_MAX && Abs(left as real - (holdings as real - Share(holdings, pct))) <= 0.5
  {
    ShareFits(holdings, pct);
    Asked(holdings, pct);
    hide SellQty, ToFloat, Share;
    RoundError(holdings as real - Share(holdings, pct));
  }

  predicate PctsInRange(es: seq<PosEvent>) {
    forall i :: 0 <= i < |es| && es[i].PartialSold? ==> 0.0 <= es[i].pct <= 100.0
  }

  lemma TickKeepsHoldings(cfg: Config, now: nat, p: Pos)
    ensures var p' := TickStep(cfg, now, p).0; p'.holdings == p.holdings && p'.entry == p.entry && p'.returned == p.returned
  {
    hide ObserveView, ObserveTape, RefreshLive, KillAfter, TpFor, DecayStep, DecayEvaluated, TimeKillDue, Crash, SlBad, SlGrace,
         TrailingDue, CeilingDue, TpSell, UpgradeGuard, CeilingGuard, NextTp, MarkTp, LockFloor;
  }

  lemma OthersKeepHoldings(cfg: Config, p: Pos, e: PosEvent)
    requires !e.PartialSold?
    ensures var p' := PosStep(cfg, p, e).0; p'.holdings == p.holdings && p'.entry == p.entry && p'.returned == p.returned
  {
    hide TickStep, Touch;
    if e.Tick? { TickKeepsHoldings(cfg, e.now, p); } else { TouchKeeps(p, e); }
  }

  lemma OneMorePartial(initial: real, before: nat, sold: real, fills: nat, pct: real)
    requires 0.0 <= pct <= 100.0 && before <= U64_MAX
    requires Abs(initial - before as real - sold) <= fills as real / 2.0
    ensures var after := FromFloatNative(ToFloat(before) - SellQty(before, pct));
            Abs(initial - after as real - (sold + Share(before, pct))) <= (fills + 1) as real / 2.0
  {
    OnePartial(before, pct);
    hide SellQty, FromFloatNative, ToFloat, Share;
    assert (fills + 1) as real / 2.0 == fills as real / 2.0 + 0.5;
  }

  /** The account of a position's tokens after a run. */
  predicate TokensAccounted(initial: nat, holdings: nat, sold: real, fills: nat) {
    holdings <= U64_MAX && Abs(initial as real - holdings as real - sold) <= fills as real / 2.0
  }

  lemma SoldStep(cfg: Config, p: Pos, es: seq<PosEvent>)
    requires es != []
    ensures var n := |es| - 1;
            var q, e := PosRun(cfg, p, es[..n]), es[n];
            && PosRun(cfg, p, es) == PosStep(cfg, q, e).0
            && Sold(cfg, p, es) == Sold(cfg, p, es[..n]) + (if e.PartialSold? then Share(q.holdings, e.pct) else 0.0)
            && Fills(es) == Fills(es[..n]) + AsNat(e.PartialSold?)
  {
    hide PosStep, SellQty;
  }

  lemma StepAccounted(cfg: Config, initial: nat, p: Pos, e: PosEvent, sold: real, fills: nat)
    requires TokensAccounted(initial, p.holdings, sold, fills)
    requires e.PartialSold? ==> 0.0 <= e.pct <= 100.0
    ensures var p' := PosStep(cfg, p, e).0;
            && p'.entry == p.entry
            && TokensAccounted(initial, p'.holdings, sold + (if e.PartialSold? then Share(p.holdings, e.pct) else 0.0),
                               fills + AsNat(e.PartialSold?))
  {
    hide PosStep, SellQty, FromFloatNative, ToFloat, Share;
    if e.PartialSold? {
      OneMorePartial(initial as real, p.holdings, sold, fills, e.pct);
      PartialStep(cfg, p, e);
    } else {
      OthersKeepHoldings(cfg, p, e);
    }
  }

  lemma OpenAccounted(cfg: Config, o: Opening)
    ensures var p := Open(cfg, o); TokensAccounted(p.entry.initial, p.holdings, 0.0, 0)
  {
    hide PushTick, ToFloat;
  }

  /** Holdings at entry are current holdings plus tokens sold, up to half a raw unit per successful
      partial sell. */
  lemma {:induction false} HoldingsConserved(cfg: Config, o: Opening, es: seq<PosEvent>)
    requires PctsInRange(es)
    ensures var q := PosRun(cfg, Open(cfg, o), es);
            && q.holdings <= U64_MAX && q.entry == Open(cfg, o).entry
            && Abs(q.entry.initial as real - q.holdings as real - Sold(cfg, Open(cfg, o), es)) <= Fills(es) as real / 2.0
  {
    hide PosStep, Open, SellQty, Share;
    if es == [] {
      OpenAccounted(cfg, o);
    } else {
      var n := |es| - 1;
      var p, q := Open(cfg, o), PosRun(cfg, Open(cfg, o), es[..n]);
      assert PctsInRange(es[..n]) && (es[n].PartialSold? ==> 0.0 <= es[n].pct <= 100.0);
      HoldingsConserved(cfg, o, es[..n]);
      hide PctsInRange, PosRun, Sold, Fills, Abs;
      SoldStep(cfg, p, es);
      StepAccounted(cfg, p.entry.initial, q, es[n], Sold(cfg, p, es[..n]), Fills(es[..n]));
    }
  }

  // ---- what is left, as shares ---------------------------------------------------------------

  /** What selling `pct` percent leaves of `x`. */
  function Kept(x: real, pct: real): real { x * (100.0 - pct) / 100.0 }

  /** What exact arithmetic leaves of an initial amount over the successful partial sells of a run. */
  function Left(initial: real, es: seq<PosEvent>): real {
    if es == [] then initial
    else
      var before, e := Left(initial, es[..|es| - 1]), es[|es| - 1];
      if e.PartialSold? then Kept(before, e.pct) else before
  }

  lemma Shrinks(d: real, keep: real, p: real)
    requires 0.0 <= keep <= 1.0 && 0.0 <= d && p == d * keep
    ensures 0.0 <= p <= d
  {
  }

  lemma Squeeze(d: real, keep: real, bound: real, p: real)
    requires 0.0 <= keep <= 1.0 && -bound <= d <= bound && p == d * keep
    ensures -bound <= p <= bound
  {
    if d >= 0.0 {
      Shrinks(d, keep, p);
    } else {
      var n, q := -d, -p;
      Shrinks(n, keep, q);
      assert q <= n <= bound;
      assert p == -q;
    }
  }

  /** A rounding error is scaled down by the next partial, which adds its own half unit. */
  lemma ErrorShrinks(target: real, before: real, after: real, keep: real, bound: real)
    requires 0.0 <= keep <= 1.0 && -bound <= before - target <= bound && -0.5 <= after - before * keep <= 0.5
    ensures -bound - 0.5 <= after - target * keep <= bound + 0.5
  {
    Squeeze(before - target, keep, bound, before * keep - target * keep);
  }

  lemma KeptShare(x: real, pct: real)
    ensures Kept(x, pct) == x * Keep(pct)
  {
  }

  predicate Near(holdings: nat, left: real, fills: nat) { holdings <= U64_MAX && Abs(holdings as real - left) <= fills as real / 2.0 }

  lemma OneMoreNear(before: nat, after: nat, left: real, pct: real, fills: nat)
    requires 0.0 <= pct <= 100.0 && Near(before, left, fills)
    requires after <= U64_MAX && Abs(after as real - (before as real - Share(before, pct))) <= 0.5
    ensures Near(after, Kept(left, pct), fills + 1)
  {
    ShareFits(before, pct);
    KeptShare(left, pct);
    hide Share, Keep, Kept;
    ErrorShrinks(left, before as real, after as real, Keep(pct), fills as real / 2.0);
  }

  lemma StepShares(cfg: Config, p: Pos, e: PosEvent, left: real, fills: nat)
    requires Near(p.holdings, left, fills) && p.holdings <= U64_MAX && (e.PartialSold? ==> 0.0 <= e.pct <= 100.0)
    ensures var p' := PosStep(cfg, p, e).0;
            && p'.entry == p.entry
            && Near(p'.holdings, if e.PartialSold? then Kept(left, e.pct) else left, fills + AsNat(e.PartialSold?))
  {
    hide PosStep, ToFloat, SellQty, FromFloatNative, Share, Kept, Near;
    if e.PartialSold? {
      OnePartial(p.holdings, e.pct);
      PartialStep(cfg, p, e);
      OneMoreNear(p.holdings, PosStep(cfg, p, e).0.holdings, left, e.pct, fills);
    } else {
      OthersKeepHoldings(cfg, p, e);
    }
  }

  lemma NearFits(holdings: nat, left: real, fills: nat)
    requires Near(holdings, left, fills)
    ensures holdings <= U64_MAX
  {
  }

  lemma OpenNear(cfg: Config, o: Opening)
    ensures var p := Open(cfg, o); Near(p.holdings, p.entry.initial as real, 0)
  {
    OpenAccounted(cfg, o);
    hide Open;
  }

  lemma {:induction false} RunNear(cfg: Config, o: Opening, es: seq<PosEvent>)
    requires PctsInRange(es)
    ensures var q := PosRun(cfg, Open(cfg, o), es);
            q.entry == Open(cfg, o).entry && Near(q.holdings, Left(q.entry.initial as real, es), Fills(es))
  {
    hide PosStep, Open, Near;
    var p := Open(cfg, o);
    hide Kept;
    if es == [] {
      OpenNear(cfg, o);
    } else {
      var n := |es| - 1;
      assert PctsInRange(es[..n]) && (es[n].PartialSold? ==> 0.0 <= es[n].pct <= 100.0);
      RunNear(cfg, o, es[..n]);
      var q, left := PosRun(cfg, p, es[..n]), Left(p.entry.initial as real, es[..n]);
      NearFits(q.holdings, left, Fills(es[..n]));
      StepShares(cfg, q, es[n], left, Fills(es[..n]));
    }
  }

  /** Over any run the holdings are what exact arithmetic leaves of the initial ones, the product of the
      shares kept, within half a raw unit per partial. */
  lemma HoldingsAreShares(cfg: Config, o: Opening, es: seq<PosEvent>)
    requires PctsInRange(es)
    ensures var q := PosRun(cfg, Open(cfg, o), es);
            Abs(q.holdings as real - Left(q.entry.initial as real, es)) <= Fills(es) as real / 2.0
  {
    hide PosRun, Open, Left, Abs, Fills, PctsInRange;
    RunNear(cfg, o, es);
  }

  /** A confirmed partial sell of `pct` percent: the other part stays, to half a raw unit, the receipt is
      added, and nothing else changes but the end of the wait. */
  lemma PartialLeaves(cfg: Config, p: Pos, pct: real, received: real)
    requires 0.0 <= pct <= 100.0 && p.holdings <= U64_MAX
    ensures var p' := PosStep(cfg, p, PartialSold(pct, received)).0;
            && Abs(p'.holdings as real - p.holdings as real * (100.0 - pct) / 100.0) <= 0.5
            && p' == p.(holdings := p'.holdings, returned := p.returned + received, sells := p.sells.(pending := false))
  {
    hide Touch;
    PartialTouch(p, pct, received, p.holdings as real * (100.0 - pct) / 100.0);
  }

  lemma PartialTouch(p: Pos, pct: real, received: real, rest: real)
    requires 0.0 <= pct <= 100.0 && p.holdings <= U64_MAX && rest == p.holdings as real * (100.0 - pct) / 100.0
    ensures var p' := Touch(p, PartialSold(pct, received));
            && Abs(p'.holdings as real - rest) <= 0.5
            && p' == p.(holdings := p'.holdings, returned := p.returned + received, sells := p.sells.(pending := false))
  {
    OnePartial(p.holdings, pct);
    RestIs(p.holdings as real, pct, rest);
    assert Share(p.holdings, pct) == p.holdings as real - rest;
    hide FromFloatNative, ToFloat, SellQty, Share;
  }

  lemma RestIs(h: real, pct: real, rest: real)
    requires rest == h * (100.0 - pct) / 100.0
    ensures h * pct / 100.0 == h - rest
  {
  }

  lemma PartialStep(cfg: Config, p: Pos, e: PosEvent)
    requires e.PartialSold?
    ensures var p' := PosStep(cfg, p, e).0;
            && p'.holdings == FromFloatNative(ToFloat(p.holdings) - SellQty(p.holdings, e.pct))
            && p'.holdings <= U64_MAX && p'.entry == p.entry
  {
  }
}
