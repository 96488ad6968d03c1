/**
 The actor seen from one (mint, wallet) row: the position if there is one, the sell orders for it
 that are still in flight, and the buys that are requested or under way. ManagerProps shows that the
 whole actor, projected on a row, moves exactly like this machine; here are its properties over all
 runs.
 */
module RowSpec {

  import opened Common
  import opened ExitEngine
  import opened Amounts
  import opened PositionSpec
  import opened PositionProps
  import opened ManagerSpec

  datatype Row = Row(pos: Option<Pos>, orders: multiset<Order>, buys: nat, buyings: nat)

  const EMPTY := Row(None, multiset{}, 0, 0)

  datatype RowEvent =
    | Idle
    | RowTick(now: nat)
    | RowTouch(touch: PosEvent)
    | Requested(n: nat)
    | BuyStarted
    | BuyDropped
    | Opened(opening: Opening)
    | BuyEnded
    | Answered(order: Order, out: Outcome)
    | Abandoned

  /** What the delivery of one order does to the position it finds. */
  function Answer(p: Pos, pct: real, out: Outcome): Option<Pos>
    requires out.SellOk? || out.SellErr?
  {
    match out
    case SellErr(manual) => Some(Touch(p, SellFailed(pct, manual)))
    case SellOk(received) => if pct < 100.0 then Some(Touch(p, PartialSold(pct, received))) else None
  }

  predicate RowEnabled(r: Row, e: RowEvent) {
    match e
    case RowTouch(t) => t.PoolUpdate? || t.JupiterMcap? || t.LiveSnapshot?
    case BuyStarted => r.buys > 0
    case BuyDropped => r.buys > 0
    case Opened(_) => r.buyings > 0
    case BuyEnded => r.buyings > 0
    case Answered(o, out) => o in r.orders && (out.SellOk? || out.SellErr?)
    case _ => true
  }

  function RowNext(cfg: Config, r: Row, e: RowEvent): Row {
    if !RowEnabled(r, e) then r
    else
      match e
      case Idle => r
      case RowTick(now) =>
        if r.pos.None? then r
        else
          var (p, o) := TickStep(cfg, now, r.pos.value);
          r.(pos := Some(p), orders := r.orders + if o.Some? then multiset{o.value} else multiset{})
      case RowTouch(t) => if r.pos.None? then r else r.(pos := Some(Touch(r.pos.value, t)))
      case Requested(n) => r.(buys := r.buys + n)
      case BuyStarted => r.(buys := r.buys - 1, buyings := r.buyings + 1)
      case BuyDropped => r.(buys := r.buys - 1)
      case Opened(o) => r.(pos := Some(Open(cfg, o)), buyings := r.buyings - 1)
      case BuyEnded => r.(buyings := r.buyings - 1)
      case Answered(o, out) =>
        r.(orders := r.orders - multiset{o}, pos := if r.pos.None? then None else Answer(r.pos.value, o.pct, out))
      case Abandoned => r.(pos := None)
  }

  function RowRun(cfg: Config, es: seq<RowEvent>): Row {
    if es == [] then EMPTY else RowNext(cfg, RowRun(cfg, es[..|es| - 1]), es[|es| - 1])
  }

  // ---- what flags in memory promise about orders in flight -------------------------------------

  predicate SomeFull(os: multiset<Order>) { exists o :: o in os && FullKind(o.kind) }

  predicate SomePartial(os: multiset<Order>) { exists o :: o in os && !FullKind(o.kind) }

  /** Full-close orders carry 100%. A closing position has a full close in flight, and one that waits
      for a partial has a partial in flight. */
  ghost predicate FlightInv(r: Row) {
    && (forall o :: o in r.orders && FullKind(o.kind) ==> o.pct == 100.0)
    && (r.pos.Some? && r.pos.value.sells.closing ==> SomeFull(r.orders))
    && (r.pos.Some? && r.pos.value.sells.pending ==> SomePartial(r.orders))
  }

  lemma TickFlight(cfg: Config, r: Row, now: nat)
    requires FlightInv(r) && r.pos.Some?
    ensures FlightInv(RowNext(cfg, r, RowTick(now)))
  {
    hide TickStep;
    var p := r.pos.value;
    var (p', o) := TickStep(cfg, now, p);
    TickOrder(cfg, now, p);
    var r' := RowNext(cfg, r, RowTick(now));
    if p.sells.closing { var f :| f in r.orders && FullKind(f.kind); assert f in r'.orders; }
    if p.sells.pending { var f :| f in r.orders && !FullKind(f.kind); assert f in r'.orders; }
    if o.Some? { MarkKeepsClosing(p.sells, o.value.kind); assert o.value in r'.orders; }
  }

  lemma MarkKeepsClosing(s: Sells, k: Kind)
    ensures k.Tp? && 1 <= k.n <= 5 ==> MarkTp(s, k.n).closing == s.closing && MarkTp(s, k.n).pending
  {
  }

  lemma AnswerFlight(cfg: Config, r: Row, o: Order, out: Outcome)
    requires FlightInv(r)
    ensures FlightInv(RowNext(cfg, r, Answered(o, out)))
  {
    hide FromFloatNative, SellQty;
    var e := Answered(o, out);
    var r' := RowNext(cfg, r, e);
    if RowEnabled(r, e) && r'.pos.Some? && r'.pos.value.sells.closing {
      var f :| f in r.orders && FullKind(f.kind);
      assert f != o;
      assert f in r'.orders;
    }
  }

  lemma StepFlight(cfg: Config, r: Row, e: RowEvent)
    requires FlightInv(r)
    ensures FlightInv(RowNext(cfg, r, e))
  {
    hide TickStep, Open, FromFloatNative;
    match e
    case RowTick(now) => if r.pos.Some? { TickFlight(cfg, r, now); }
    case Answered(o, out) => AnswerFlight(cfg, r, o, out);
    case Opened(o) => OpenFlags(cfg, o);
    case RowTouch(t) => hide SomeFull, SomePartial;
    case _ =>
  }

  lemma OpenFlags(cfg: Config, o: Opening)
    ensures var s := Open(cfg, o).sells; !s.closing && !s.pending
    ensures Open(cfg, o).returned == 0.0 && Open(cfg, o).entry.spent == o.spent
  {
    hide FromFloatNative, PushTick, ToFloat;
  }

  /** In every reachable state: a closing position has a 100% sell in flight, and a position waiting for
      a partial has a partial in flight. So no position is stuck: the answer to that order either closes
      it or clears the flag. */
  lemma {:induction false} NeverStuck(cfg: Config, es: seq<RowEvent>)
    ensures FlightInv(RowRun(cfg, es))
  {
    if es != [] {
      hide RowNext, FlightInv;
      NeverStuck(cfg, es[..|es| - 1]);
      StepFlight(cfg, RowRun(cfg, es[..|es| - 1]), es[|es| - 1]);
    } else {
    }
  }

  /** Whatever the broker answers to a full close, the position is gone or open for ticks again. */
  lemma FullAnswerReleases(cfg: Config, r: Row, o: Order, out: Outcome)
    requires FlightInv(r) && o in r.orders && FullKind(o.kind) && RowEnabled(r, Answered(o, out))
    ensures var r' := RowNext(cfg, r, Answered(o, out));
            r'.pos.None? || (!r'.pos.value.sells.closing && !r'.pos.value.sells.pending)
    ensures var r' := RowNext(cfg, r, Answered(o, out)); out.SellOk? ==> r'.pos.None?
  {
    hide FromFloatNative, SellQty;
  }

  // ---- how many orders can be outstanding ----------------------------------------------------------

  /** Broker failures on this row since its position was opened. */
  function Failures(cfg: Config, es: seq<RowEvent>): nat {
    if es == [] then 0
    else
      var n := |es| - 1;
      var r, e := RowRun(cfg, es[..n]), es[n];
      if e.Opened? && RowEnabled(r, e) then 0
      else Failures(cfg, es[..n]) + AsNat(e.Answered? && RowEnabled(r, e) && r.pos.Some? && e.out.SellErr?)
  }

  /** Orders that were already in flight for the row when its position was opened. */
  function Carried(cfg: Config, es: seq<RowEvent>): multiset<Order> {
    if es == [] then multiset{}
    else
      var n := |es| - 1;
      var r, e := RowRun(cfg, es[..n]), es[n];
      if e.Opened? && RowEnabled(r, e) then r.orders else Carried(cfg, es[..n])
  }

  function FlightFlags(r: Row): nat {
    if r.pos.None? then 0 else AsNat(r.pos.value.sells.closing) + AsNat(r.pos.value.sells.pending)
  }

  /** One event changes the outstanding orders by no more than it changes flags and failures. */
  lemma StepOutstanding(cfg: Config, r: Row, e: RowEvent)
    requires !(e.Opened? && RowEnabled(r, e))
    ensures var r' := RowNext(cfg, r, e);
            var failed := AsNat(e.Answered? && RowEnabled(r, e) && r.pos.Some? && e.out.SellErr?);
            r'.pos.Some? ==> r.pos.Some? && |r'.orders| + FlightFlags(r) <= |r.orders| + FlightFlags(r') + failed
  {
    hide TickStep, FromFloatNative, SellQty, Open;
    match e
    case RowTick(now) =>
      if r.pos.Some? {
        TickOrder(cfg, now, r.pos.value);
        var o := TickStep(cfg, now, r.pos.value).1;
        if o.Some? { MarkKeepsClosing(r.pos.value.sells, o.value.kind); }
      }
    case _ =>
  }

  /** Outstanding sells of an open position are at most its two flags, plus the failures since it was
      opened, plus whatever was in flight for the row at that moment. */
  lemma {:induction false} OutstandingBound(cfg: Config, es: seq<RowEvent>)
    ensures var r := RowRun(cfg, es);
            r.pos.Some? ==> |r.orders| <= FlightFlags(r) + Failures(cfg, es) + |Carried(cfg, es)|
  {
    if es != [] {
      hide RowNext, FlightFlags;
      var n := |es| - 1;
      var r, e := RowRun(cfg, es[..n]), es[n];
      OutstandingBound(cfg, es[..n]);
      if e.Opened? && RowEnabled(r, e) {
        OpenedOrders(cfg, r, e.opening);
      } else {
        StepOutstanding(cfg, r, e);
      }
    }
  }

  lemma OpenedOrders(cfg: Config, r: Row, o: Opening)
    requires r.buyings > 0
    ensures var r' := RowNext(cfg, r, Opened(o)); r'.orders == r.orders && r'.pos == Some(Open(cfg, o))
  {
  }
}
