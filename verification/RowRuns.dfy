/**
 Lives of a row: which position a run of row events has built, which orders are its own, what they
 sold and returned. It carries every result about one position over to every reachable row.
 */
module RowRuns {

  import opened Common
  import opened ExitEngine
  import opened Amounts
  import opened PositionSpec
  import opened PositionProps
  import opened FlushProps
  import opened FloorProps
  import opened PartialProps
  import opened RowSpec

  // ---- a row's position is a run of that position --------------------------------------------

  /** How the current position was opened, and what has happened to it since, oldest first. */
  datatype Life = Life(opening: Opening, trace: seq<PosEvent>)

  /** What a row event is to the open position; `None` when it leaves it alone or ends it. */
  function Felt(e: RowEvent): Option<PosEvent> {
    match e
    case RowTick(now) => Some(Tick(now))
    case RowTouch(t) => Some(t)
    case Answered(o, SellErr(manual)) => Some(SellFailed(o.pct, manual))
    case Answered(o, SellOk(received)) => if o.pct < 100.0 then Some(PartialSold(o.pct, received)) else None
    case _ => None
  }

  predicate Ends(e: RowEvent) { e.Abandoned? || (e.Answered? && e.out.SellOk? && e.order.pct >= 100.0) }

  function LifeStep(r: Row, e: RowEvent, before: Option<Life>): Option<Life> {
    if !RowEnabled(r, e) then before
    else if e.Opened? then Some(Life(e.opening, []))
    else if before.None? || Ends(e) then None
    else if Felt(e).None? then before
    else Some(before.value.(trace := before.value.trace + [Felt(e).value]))
  }

  function LifeOf(cfg: Config, es: seq<RowEvent>): Option<Life> {
    if es == [] then None
    else var n := |es| - 1; LifeStep(RowRun(cfg, es[..n]), es[n], LifeOf(cfg, es[..n]))
  }

  function Lived(cfg: Config, l: Life): Pos { PosRun(cfg, Open(cfg, l.opening), l.trace) }

  lemma PosRunSnoc(cfg: Config, p: Pos, es: seq<PosEvent>, e: PosEvent)
    ensures PosRun(cfg, p, es + [e]) == PosStep(cfg, PosRun(cfg, p, es), e).0
    ensures var o := PosStep(cfg, PosRun(cfg, p, es), e).1;
            multiset(Orders(cfg, p, es + [e])) == multiset(Orders(cfg, p, es)) + if o.Some? then multiset{o.value} else multiset{}
  {
    hide PosStep;
    assert (es + [e])[..|es|] == es;
  }

  lemma AnswerFeels(cfg: Config, r: Row, e: RowEvent)
    requires r.pos.Some? && RowEnabled(r, e) && e.Answered?
    ensures var r' := RowNext(cfg, r, e);
            && r'.orders <= r.orders
            && (if Ends(e) then r'.pos.None? else Felt(e).Some? && r'.pos == Some(Touch(r.pos.value, Felt(e).value)))
  {
    hide Touch;
  }

  /** What an enabled event does to an open position, and what it adds to the orders. */
  lemma RowFeels(cfg: Config, r: Row, e: RowEvent)
    requires r.pos.Some? && RowEnabled(r, e) && !e.Opened?
    ensures var r' := RowNext(cfg, r, e);
            if Ends(e) then r'.pos.None?
            else if Felt(e).None? then r'.pos == r.pos && r'.orders == r.orders
            else
              var (p, o) := PosStep(cfg, r.pos.value, Felt(e).value);
              r'.pos == Some(p) && r'.orders <= r.orders + if o.Some? then multiset{o.value} else multiset{}
  {
    hide TickStep, Touch;
    if e.Answered? {
      hide RowNext;
      AnswerFeels(cfg, r, e);
    }
  }

  /** The row's position is what `l` built, and its orders come from `l` or from `carried`. */
  ghost predicate Explains(cfg: Config, l: Option<Life>, carried: multiset<Order>, r: Row) {
    && (r.pos.Some? <==> l.Some?)
    && (l.Some? ==>
          && r.pos.value == Lived(cfg, l.value)
          && r.orders <= multiset(Orders(cfg, Open(cfg, l.value.opening), l.value.trace)) + carried)
  }

  lemma StepLife(cfg: Config, r: Row, e: RowEvent, l: Option<Life>, carried: multiset<Order>)
    requires Explains(cfg, l, carried, r) && !(e.Opened? && RowEnabled(r, e))
    ensures Explains(cfg, LifeStep(r, e, l), carried, RowNext(cfg, r, e))
  {
    hide RowNext, PosStep, Open, Felt, Ends, RowEnabled, PosRun, Orders;
    if RowEnabled(r, e) && r.pos.Some? {
      RowFeels(cfg, r, e);
      if Felt(e).Some? { PosRunSnoc(cfg, Open(cfg, l.value.opening), l.value.trace, Felt(e).value); }
    } else {
      StaysEmpty(cfg, r, e);
    }
  }

  /** Every position of every reachable row is the run of its own life from its own opening, and every
      order in flight for the row was queued in that life or was already in flight when it began. */
  lemma {:induction false} RowIsLife(cfg: Config, es: seq<RowEvent>)
    ensures Explains(cfg, LifeOf(cfg, es), Carried(cfg, es), RowRun(cfg, es))
  {
    if es != [] {
      hide RowNext, Explains, LifeStep, RowEnabled;
      var n := |es| - 1;
      var r, e := RowRun(cfg, es[..n]), es[n];
      RowIsLife(cfg, es[..n]);
      if e.Opened? && RowEnabled(r, e) {
        OpeningExplains(cfg, r, e, LifeOf(cfg, es[..n]));
      } else {
        StepLife(cfg, r, e, LifeOf(cfg, es[..n]), Carried(cfg, es[..n]));
      }
    }
  }

  lemma OpeningExplains(cfg: Config, r: Row, e: RowEvent, l: Option<Life>)
    requires e.Opened? && RowEnabled(r, e)
    ensures Explains(cfg, LifeStep(r, e, l), r.orders, RowNext(cfg, r, e))
  {
    hide Open;
  }

  lemma StaysEmpty(cfg: Config, r: Row, e: RowEvent)
    requires !(e.Opened? && RowEnabled(r, e)) && (r.pos.None? || !RowEnabled(r, e))
    ensures RowNext(cfg, r, e).pos == r.pos
    ensures !RowEnabled(r, e) ==> RowNext(cfg, r, e) == r
    ensures r.pos.None? ==> RowNext(cfg, r, e).orders <= r.orders
  {
    hide TickStep, Touch;
  }

  // ---- requests, broker buys, openings ---------------------------------------------------------

  function TotalRequested(es: seq<RowEvent>): nat {
    if es == [] then 0
    else TotalRequested(es[..|es| - 1]) + if es[|es| - 1].Requested? then es[|es| - 1].n else 0
  }

  /** Calls of `broker.buy`. */
  function BrokerBuys(cfg: Config, es: seq<RowEvent>): nat {
    if es == [] then 0
    else
      var n := |es| - 1;
      BrokerBuys(cfg, es[..n]) + AsNat(es[n].BuyStarted? && RowEnabled(RowRun(cfg, es[..n]), es[n]))
  }

  function Openings(cfg: Config, es: seq<RowEvent>): nat {
    if es == [] then 0
    else
      var n := |es| - 1;
      Openings(cfg, es[..n]) + AsNat(es[n].Opened? && RowEnabled(RowRun(cfg, es[..n]), es[n]))
  }

  lemma StepCounts(cfg: Config, r: Row, e: RowEvent)
    ensures var r' := RowNext(cfg, r, e);
            && r'.buys + AsNat(e.BuyStarted? && RowEnabled(r, e)) <= r.buys + (if e.Requested? then e.n else 0)
            && r'.buyings + AsNat(e.Opened? && RowEnabled(r, e)) <= r.buyings + AsNat(e.BuyStarted? && RowEnabled(r, e))
            && (r.pos.None? && r.orders == multiset{} && !(e.Opened? && RowEnabled(r, e)) ==> r'.pos.None? && r'.orders == multiset{})
  {
    hide TickStep, Touch, Open;
  }

  /** Every broker buy answers a request, every opening a broker buy; a row that was never opened has
      no position and no sell order, and one opened at most once carried nothing over. */
  lemma {:induction false} BuysAnswerRequests(cfg: Config, es: seq<RowEvent>)
    ensures var r := RowRun(cfg, es);
            && BrokerBuys(cfg, es) + r.buys <= TotalRequested(es)
            && Openings(cfg, es) + r.buyings <= BrokerBuys(cfg, es)
            && (Openings(cfg, es) == 0 ==> r.pos.None? && r.orders == multiset{})
            && (Openings(cfg, es) <= 1 ==> Carried(cfg, es) == multiset{})
  {
    if es != [] {
      hide RowNext, RowEnabled;
      var n := |es| - 1;
      BuysAnswerRequests(cfg, es[..n]);
      StepCounts(cfg, RowRun(cfg, es[..n]), es[n]);
    }
  }

  /** Full closes that the broker confirmed while the position was there. */
  function Closings(cfg: Config, es: seq<RowEvent>): nat {
    if es == [] then 0
    else
      var n := |es| - 1;
      Closings(cfg, es[..n]) + AsNat(Closes(RowRun(cfg, es[..n]), es[n]))
  }

  predicate Closes(r: Row, e: RowEvent) { RowEnabled(r, e) && r.pos.Some? && e.Answered? && Ends(e) }

  lemma StepCloses(cfg: Config, r: Row, e: RowEvent)
    ensures AsNat(RowNext(cfg, r, e).pos.Some?) + AsNat(Closes(r, e)) <= AsNat(r.pos.Some?) + AsNat(e.Opened? && RowEnabled(r, e))
  {
    hide TickStep, Touch, Open;
  }

  /** Each position is closed, and so counted, at most once: confirmed closes and an open position
      together are never more than the openings. */
  lemma {:induction false} ClosedAtMostOnce(cfg: Config, es: seq<RowEvent>)
    ensures Closings(cfg, es) + AsNat(RowRun(cfg, es).pos.Some?) <= Openings(cfg, es)
  {
    if es != [] {
      hide RowNext, RowEnabled, Closes;
      var n := |es| - 1;
      ClosedAtMostOnce(cfg, es[..n]);
      StepCloses(cfg, RowRun(cfg, es[..n]), es[n]);
    }
  }

  /** With at most one buy request for a row, over every interleaving: at most one broker buy, at most
      one opening, and every sell order in flight was queued by the position that is open. A late
      order therefore acts on the position that queued it, or finds none. */
  lemma {:induction false} OneRequestOneLife(cfg: Config, es: seq<RowEvent>)
    requires TotalRequested(es) <= 1
    ensures BrokerBuys(cfg, es) <= 1 && Openings(cfg, es) <= 1
    ensures var r, l := RowRun(cfg, es), LifeOf(cfg, es);
            && (l.Some? ==> r.orders <= multiset(Orders(cfg, Open(cfg, l.value.opening), l.value.trace)))
            && (r.pos.Some? ==> |r.orders| <= FlightFlags(r) + Failures(cfg, es))
  {
    hide RowRun, LifeOf, Failures, FlightFlags, Open, Orders;
    BuysAnswerRequests(cfg, es);
    RowIsLife(cfg, es);
    OutstandingBound(cfg, es);
  }

  /** With no failed sell since the opening either, an open position has exactly the orders its flags
      announce: any two outstanding orders are one full close and one partial. */
  lemma {:induction false} NoFailuresOneOfEach(cfg: Config, es: seq<RowEvent>, a: Order, b: Order)
    requires TotalRequested(es) <= 1 && Failures(cfg, es) == 0 && RowRun(cfg, es).pos.Some?
    ensures var r := RowRun(cfg, es);
            && |r.orders| == FlightFlags(r)
            && (multiset{a, b} <= r.orders ==> FullKind(a.kind) != FullKind(b.kind))
  {
    hide RowRun, Failures;
    OneRequestOneLife(cfg, es);
    NeverStuck(cfg, es);
    ExactFlight(RowRun(cfg, es), a, b);
  }

  lemma Pair(os: multiset<Order>, f: Order, p: Order)
    requires f in os && p in os && f != p && |os| <= 2
    ensures os == multiset{f, p} && |os| == 2
  {
    assert |os - multiset{f} - multiset{p}| == |os| - 2;
    assert os - multiset{f} - multiset{p} == multiset{};
  }

  lemma Single(os: multiset<Order>, o: Order)
    requires o in os && |os| <= 1
    ensures os == multiset{o} && |os| == 1
  {
    assert |os - multiset{o}| == |os| - 1;
    assert os - multiset{o} == multiset{};
  }

  lemma ExactFlight(r: Row, a: Order, b: Order)
    requires FlightInv(r) && r.pos.Some? && |r.orders| <= FlightFlags(r)
    ensures |r.orders| == FlightFlags(r)
    ensures multiset{a, b} <= r.orders ==> FullKind(a.kind) != FullKind(b.kind)
  {
    var s, os := r.pos.value.sells, r.orders;
    hide FullKind;
    if s.closing && s.pending {
      var f :| f in os && FullKind(f.kind);
      var p :| p in os && !FullKind(p.kind);
      Pair(os, f, p);
      if multiset{a, b} <= os { WithinPair(a, b, f, p); }
    } else if s.closing || s.pending {
      var o :| o in os;
      Single(os, o);
      assert (a == b ==> multiset{a, b}[a] == 2) && a in multiset{a, b} && b in multiset{a, b};
    }
  }

  lemma WithinPair(a: Order, b: Order, f: Order, p: Order)
    requires multiset{a, b} <= multiset{f, p} && f != p
    ensures (a == f && b == p) || (a == p && b == f)
  {
    assert a == b ==> multiset{a, b}[a] == 2;
    assert a in multiset{f, p} && b in multiset{f, p};
  }

  // ---- successful partials are own orders ---------------------------------------------------------

  /** The orders whose delivery sold part of the position, since it was opened. */
  function Filled(cfg: Config, es: seq<RowEvent>): multiset<Order> {
    if es == [] then multiset{}
    else
      var n := |es| - 1;
      var e := es[n];
      if !RowEnabled(RowRun(cfg, es[..n]), e) then Filled(cfg, es[..n])
      else if e.Opened? then multiset{}
      else Filled(cfg, es[..n]) + if SellsPart(RowRun(cfg, es[..n]), e) then multiset{e.order} else multiset{}
  }

  /** The delivery sells part of the position. */
  predicate SellsPart(r: Row, e: RowEvent) { r.pos.Some? && e.Answered? && e.out.SellOk? && e.order.pct < 100.0 }

  /** Queued orders of a life are in flight, answered, or were never there. */
  ghost predicate Accounts(cfg: Config, l: Option<Life>, carried: multiset<Order>, filled: multiset<Order>, r: Row) {
    l.Some? && r.pos.Some? ==>
      && r.orders + filled <= multiset(Orders(cfg, Open(cfg, l.value.opening), l.value.trace)) + carried
      && |filled| == Fills(l.value.trace)
      && forall o :: o in filled ==> !FullKind(o.kind)
  }

  lemma FillsSnoc(es: seq<PosEvent>, e: PosEvent)
    ensures Fills(es + [e]) == Fills(es) + AsNat(e.PartialSold?)
  {
    assert (es + [e])[..|es|] == es;
  }

  /** Answering an order takes that order out of flight; a full close carries 100%. */
  lemma AnswerMoves(cfg: Config, r: Row, e: RowEvent)
    requires FlightInv(r) && r.pos.Some? && RowEnabled(r, e) && e.Answered?
    ensures RowNext(cfg, r, e).orders + multiset{e.order} == r.orders
    ensures e.order.pct < 100.0 ==> !FullKind(e.order.kind)
  {
    hide Touch, FullKind, SomeFull, SomePartial;
  }

  lemma AnswerIsQuiet(cfg: Config, p: Pos, e: RowEvent)
    requires e.Answered? && (e.out.SellOk? || e.out.SellErr?) && Felt(e).Some?
    ensures PosStep(cfg, p, Felt(e).value).1.None?
    ensures Felt(e).value.PartialSold? <==> e.out.SellOk? && e.order.pct < 100.0
  {
    hide Touch, TickStep;
  }

  lemma OthersMove(cfg: Config, r: Row, e: RowEvent)
    requires r.pos.Some? && RowEnabled(r, e) && !e.Opened? && !e.Answered? && Felt(e).Some?
    ensures var r', o := RowNext(cfg, r, e), PosStep(cfg, r.pos.value, Felt(e).value).1;
            r'.orders == r.orders + if o.Some? then multiset{o.value} else multiset{}
    ensures !Felt(e).value.PartialSold?
  {
    hide Touch, TickStep;
  }

  /** How one felt event moves the orders in flight and the filled ones together. */
  lemma RowMoves(cfg: Config, r: Row, e: RowEvent)
    requires FlightInv(r) && r.pos.Some? && RowEnabled(r, e) && !e.Opened? && !Ends(e) && Felt(e).Some?
    ensures var r', o := RowNext(cfg, r, e), PosStep(cfg, r.pos.value, Felt(e).value).1;
            r'.orders + (if SellsPart(r, e) then multiset{e.order} else multiset{}) <= r.orders + if o.Some? then multiset{o.value} else multiset{}
    ensures Felt(e).value.PartialSold? <==> SellsPart(r, e)
    ensures SellsPart(r, e) ==> !FullKind(e.order.kind)
  {
    hide RowNext, PosStep, FlightInv, FullKind, Felt, Ends;
    if e.Answered? {
      AnswerMoves(cfg, r, e);
      AnswerIsQuiet(cfg, r.pos.value, e);
    } else {
      OthersMove(cfg, r, e);
    }
  }

  lemma StepAccounts(cfg: Config, r: Row, e: RowEvent, l: Option<Life>, carried: multiset<Order>, filled: multiset<Order>)
    requires FlightInv(r) && Explains(cfg, l, carried, r) && Accounts(cfg, l, carried, filled, r)
    requires RowEnabled(r, e) && !e.Opened?
    ensures Accounts(cfg, LifeStep(r, e, l), carried, filled + if SellsPart(r, e) then multiset{e.order} else multiset{}, RowNext(cfg, r, e))
  {
    hide RowNext, PosStep, Open, Felt, RowEnabled, PosRun, Orders, Fills, FullKind, Ends, FlightInv;
    if r.pos.Some? && !Ends(e) {
      RowFeels(cfg, r, e);
      if Felt(e).Some? {
        PosRunSnoc(cfg, Open(cfg, l.value.opening), l.value.trace, Felt(e).value);
        FillsSnoc(l.value.trace, Felt(e).value);
        RowMoves(cfg, r, e);
      } else {
        FillsAreFelt(e);
      }
    }
  }

  lemma FillsAreFelt(e: RowEvent)
    requires Felt(e).None?
    ensures forall r :: SellsPart(r, e) ==> Ends(e)
  {
  }

  lemma {:induction false} RowAccounts(cfg: Config, es: seq<RowEvent>)
    ensures Accounts(cfg, LifeOf(cfg, es), Carried(cfg, es), Filled(cfg, es), RowRun(cfg, es))
  {
    if es != [] {
      hide RowNext, Accounts, LifeStep, RowEnabled, Explains, FlightInv, SellsPart;
      var n := |es| - 1;
      var r, e := RowRun(cfg, es[..n]), es[n];
      RowAccounts(cfg, es[..n]);
      RowIsLife(cfg, es[..n]);
      NeverStuck(cfg, es[..n]);
      if !RowEnabled(r, e) {
        DisabledRow(cfg, r, e, LifeOf(cfg, es[..n]));
      } else if e.Opened? {
        OpeningAccounts(cfg, r, e, LifeOf(cfg, es[..n]));
      } else {
        StepAccounts(cfg, r, e, LifeOf(cfg, es[..n]), Carried(cfg, es[..n]), Filled(cfg, es[..n]));
      }
    }
  }

  lemma DisabledRow(cfg: Config, r: Row, e: RowEvent, l: Option<Life>)
    requires !RowEnabled(r, e)
    ensures RowNext(cfg, r, e) == r && LifeStep(r, e, l) == l
  {
  }

  lemma OpeningAccounts(cfg: Config, r: Row, e: RowEvent, l: Option<Life>)
    requires e.Opened? && RowEnabled(r, e)
    ensures Accounts(cfg, LifeStep(r, e, l), r.orders, multiset{}, RowNext(cfg, r, e))
  {
    hide Open;
  }

  /** Distinct partial orders taken from a list are at most its partial orders. */
  lemma {:induction false} PartialsWithin(a: multiset<Order>, os: seq<Order>)
    requires a <= multiset(os) && forall o :: o in a ==> !FullKind(o.kind)
    ensures |a| <= CountPartials(os)
  {
    if os == [] {
      assert a == multiset{};
    } else {
      var n := |os| - 1;
      var x := os[n];
      assert os == os[..n] + [x];
      var rest := a - multiset{x};
      assert rest <= multiset(os[..n]);
      PartialsWithin(rest, os[..n]);
      if x in a { assert |rest| == |a| - 1; } else { assert rest == a; }
    }
  }

  /** With at most one buy request, a position's successful partial sells are at most six over its whole
      life: each answers one of its own partial orders. */
  lemma {:induction false} AtMostSixFills(cfg: Config, es: seq<RowEvent>)
    requires TotalRequested(es) <= 1 && LifeOf(cfg, es).Some?
    ensures Fills(LifeOf(cfg, es).value.trace) <= 6
  {
    hide RowRun, LifeOf, Open, Orders, PosRun, Fills, Carried, Filled, CountPartials, Triggered;
    var l := LifeOf(cfg, es).value;
    RowIsLife(cfg, es);
    RowAccounts(cfg, es);
    BuysAnswerRequests(cfg, es);
    AtMostSixPartials(cfg, l.opening, l.trace);
    var r, os, filled := RowRun(cfg, es), Orders(cfg, Open(cfg, l.opening), l.trace), Filled(cfg, es);
    assert r.orders + filled <= multiset(os) + multiset{};
    assert filled <= r.orders + filled && multiset(os) + multiset{} == multiset(os);
    PartialsWithin(filled, os);
  }

  // ---- what the trace of a life adds up to ------------------------------------------------------

  /** Every take-profit of every profile sells between nothing and everything. */
  predicate SellPctsValid(cfg: Config) {
    ProfilePcts(cfg.plain) && ProfilePcts(cfg.v4.weak) && ProfilePcts(cfg.v4.neutral)
    && ProfilePcts(cfg.v4.strong) && ProfilePcts(cfg.v4.runner)
  }

  predicate ProfilePcts(t: TpProfile) {
    && 0.0 <= t.tp1Sell <= 100.0 && 0.0 <= t.tp2Sell <= 100.0 && 0.0 <= t.tp3Sell <= 100.0
    && 0.0 <= t.tp4Sell <= 100.0 && 0.0 <= t.tp5Sell <= 100.0
  }

  lemma PhasePcts(t: TpProfile, ph: Phase)
    requires ProfilePcts(t)
    ensures ProfilePcts(ApplyPhase(t, ph))
  {
  }

  lemma TpSellPct(cfg: Config, l: Live, n: nat)
    requires SellPctsValid(cfg) && 1 <= n <= 5
    ensures 0.0 <= TpSell(cfg, TpFor(cfg, l), l, n) <= 100.0
  {
    if cfg.v4.enabled {
      PhasePcts(ProfileParams(cfg.v4, l.profile), l.phase);
    }
    hide ApplyPhase;
  }

  lemma StagePct(cfg: Config, v: View, kill: nat, p: Pos)
    requires SellPctsValid(cfg)
    ensures var o := ExitStage(cfg, v, TpFor(cfg, p.live), kill, p).1; o.Some? ==> 0.0 <= o.value.pct <= 100.0
  {
    hide TpFor, TpSell, SellPctsValid, DecayStep, DecayEvaluated, DecayNeeded, TimeKillDue, Crash, SlBad, SlGrace, SlNeeded,
         TrailingDue, CeilingDue, UpgradeGuard, NextTp, MarkTp, CeilingGuard;
    var n := NextTp(TpFor(cfg, p.live), v.profit, p.sells);
    if 1 <= n <= 5 { TpSellPct(cfg, p.live, n); }
  }

  lemma TickPct(cfg: Config, now: nat, p: Pos)
    requires SellPctsValid(cfg)
    ensures var o := TickStep(cfg, now, p).1; o.Some? ==> 0.0 <= o.value.pct <= 100.0
  {
    hide ObserveView, ObserveTape, RefreshLive, KillAfter, TpFor, ExitStage, SellPctsValid;
    if !p.sells.closing {
      var v, q := ObserveView(cfg, now, p.entry, p.tape), Prepared(cfg, now, p);
      StagePct(cfg, v, KillAfter(cfg, v, q.entry, q.tape.highest), q);
    }
  }

  predicate OrderPcts(r: Row) { forall o :: o in r.orders ==> 0.0 <= o.pct <= 100.0 }

  lemma StepPcts(cfg: Config, r: Row, e: RowEvent)
    requires SellPctsValid(cfg) && OrderPcts(r)
    ensures OrderPcts(RowNext(cfg, r, e))
  {
    hide TickStep, Touch, Open, SellPctsValid;
    if e.RowTick? && r.pos.Some? { TickPct(cfg, e.now, r.pos.value); }
  }

  lemma FeltPct(r: Row, e: RowEvent)
    requires OrderPcts(r) && RowEnabled(r, e) && Felt(e).Some? && Felt(e).value.PartialSold?
    ensures 0.0 <= Felt(e).value.pct <= 100.0
  {
  }

  lemma StepLifePcts(r: Row, e: RowEvent, l: Option<Life>)
    requires OrderPcts(r) && (l.Some? ==> PctsInRange(l.value.trace))
    ensures var l' := LifeStep(r, e, l); l'.Some? ==> PctsInRange(l'.value.trace)
  {
    hide Felt, RowEnabled, Ends, OrderPcts;
    if RowEnabled(r, e) && Felt(e).Some? && Felt(e).value.PartialSold? { FeltPct(r, e); }
  }

  /** Valid percentages in the configuration reach every order and every partial sell of every run. */
  lemma {:induction false} PctsStayValid(cfg: Config, es: seq<RowEvent>)
    requires SellPctsValid(cfg)
    ensures OrderPcts(RowRun(cfg, es))
    ensures var l := LifeOf(cfg, es); l.Some? ==> PctsInRange(l.value.trace)
  {
    if es != [] {
      hide RowNext, SellPctsValid, LifeStep, OrderPcts, PctsInRange;
      var n := |es| - 1;
      PctsStayValid(cfg, es[..n]);
      StepPcts(cfg, RowRun(cfg, es[..n]), es[n]);
      StepLifePcts(RowRun(cfg, es[..n]), es[n], LifeOf(cfg, es[..n]));
    }
  }

  /** Receipts of the successful partial sells of a trace. */
  function Legs(es: seq<PosEvent>): real {
    if es == [] then 0.0
    else Legs(es[..|es| - 1]) + if es[|es| - 1].PartialSold? then es[|es| - 1].received else 0.0
  }

  lemma {:induction false} ReturnedIsLegs(cfg: Config, p: Pos, es: seq<PosEvent>)
    ensures var q := PosRun(cfg, p, es); q.returned == p.returned + Legs(es) && q.entry == p.entry
  {
    if es != [] {
      hide TickStep;
      var n := |es| - 1;
      var q, e := PosRun(cfg, p, es[..n]), es[n];
      ReturnedIsLegs(cfg, p, es[..n]);
      if !e.PartialSold? { OthersKeepHoldings(cfg, q, e); }
      hide FromFloatNative, SellQty;
    }
  }

  /** Everything proved about runs of one position, in every reachable row. */
  lemma {:induction false} ReachablePosition(cfg: Config, es: seq<RowEvent>)
    requires LifeOf(cfg, es).Some?
    ensures RowRun(cfg, es).pos.Some?
    ensures var l, q := LifeOf(cfg, es).value, RowRun(cfg, es).pos.value;
            var p := Open(cfg, l.opening);
            && q.returned == Legs(l.trace) && q.entry == p.entry
            && q.guard.slStreak == Capped(Tail(SlHistory(cfg, p, l.trace)))
            && q.guard.decayStreak == Capped(Tail(DecayHistory(cfg, p, l.trace)))
            && (q.guard.flushActive ==> IsMin(q.guard.flushLow, FlushTape(cfg, p, l.trace)))
            && CountPartials(Orders(cfg, p, l.trace)) <= 6
            && (ThresholdsOrdered(cfg) ==> PrefixHit(q.sells))
            && (FloorsOrdered(cfg) ==> FloorInv(cfg, q) && Effective(cfg, p) <= Effective(cfg, q))
            && (SellPctsValid(cfg) ==>
                  Abs(q.entry.initial as real - q.holdings as real - Sold(cfg, p, l.trace)) <= Fills(l.trace) as real / 2.0)
  {
    hide Open, PosRun, Effective, FloorInv, FloorsOrdered, RowRun, PrefixHit, ThresholdsOrdered, LifeOf, FlushTrue, IsMin, Capped,
         SlHistory, DecayHistory, Orders, FlushTape, Sold, Fills, Legs, Tail, Triggered, CountPartials, SellPctsValid, PctsInRange;
    var l := LifeOf(cfg, es).value;
    var p := Open(cfg, l.opening);
    RowIsLife(cfg, es);
    OpensFresh(cfg, l.opening);
    StreaksAreHistory(cfg, p, l.trace);
    FlushLowIsMinimum(cfg, p, l.trace);
    AtMostSixPartials(cfg, l.opening, l.trace);
    ReturnedIsLegs(cfg, p, l.trace);
    if ThresholdsOrdered(cfg) { TakeProfitsFormPrefix(cfg, l.opening, l.trace); }
    if FloorsOrdered(cfg) { FloorNeverDecreases(cfg, l.opening, l.trace, 0); FromStart(cfg, p, l.trace); }
    if SellPctsValid(cfg) { PctsStayValid(cfg, es); HoldingsConserved(cfg, l.opening, l.trace); }
  }

  lemma FromStart(cfg: Config, p: Pos, es: seq<PosEvent>)
    ensures PosRun(cfg, p, es[..0]) == p
  {
  }

  lemma OpensFresh(cfg: Config, o: Opening)
    ensures var p := Open(cfg, o);
            && p.guard.slStreak == 0 && p.guard.decayStreak == 0 && !p.guard.flushActive
            && p.tape.highest >= 0.0 && p.returned == 0.0 && p.entry.spent == o.spent
  {
    hide FromFloatNative, PushTick;
  }
}
