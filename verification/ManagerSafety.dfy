/** Safety of the whole position manager over every run, for every interleaving and broker answer. */
module ManagerSafety {

  import opened Common
  import opened ExitEngine
  import opened Amounts
  import opened PositionSpec
  import opened PartialProps
  import opened ManagerSpec
  import opened RowSpec
  import opened RowRuns
  import opened ManagerProps

  // ---- no position is ever stuck ---------------------------------------------------------------

  /** A sell order of the row that is still in flight. */
  predicate InFlight(s: Actor, k: Key, o: Order) { ExecuteSell(k, o) in s.inflight }

  lemma {:induction false} OrdersAreMessages(ms: seq<Msg>, k: Key, o: Order)
    ensures o in OrdersIn(ms, k) <==> ExecuteSell(k, o) in ms
  {
    if ms != [] { OrdersAreMessages(ms[..|ms| - 1], k, o); }
  }

  /** In every reachable state of the actor: a position that is closing has a 100% sell in flight, one
      that waits for a partial has a partial in flight, and its outstanding sells number at most its two
      flags plus the failed sells since it was opened plus what it found in flight at that moment. */
  lemma {:induction false} NoPositionStuck(cfg: Config, ws: set<Wallet>, es: seq<Event>, k: Key)
    requires k in Run(cfg, ws, es).positions
    ensures var s := Run(cfg, ws, es);
            var f := s.positions[k].sells;
            && (f.closing ==> exists o :: InFlight(s, k, o) && FullKind(o.kind) && o.pct == 100.0)
            && (f.pending ==> exists o :: InFlight(s, k, o) && !FullKind(o.kind))
            && |OrdersIn(s.inflight, k)| <=
               AsNat(f.closing) + AsNat(f.pending) + Failures(cfg, RowEvents(cfg, ws, es, k)) + |Carried(cfg, RowEvents(cfg, ws, es, k))|
  {
    hide Run, RowEvents, RowRun, Failures, Carried, OrdersIn;
    var s, rs := Run(cfg, ws, es), RowEvents(cfg, ws, es, k);
    RunSimulates(cfg, ws, es, k);
    NeverStuck(cfg, rs);
    OutstandingBound(cfg, rs);
    var r := RowOf(s, k);
    if r.pos.value.sells.closing {
      var o :| o in r.orders && FullKind(o.kind);
      OrdersAreMessages(s.inflight, k, o);
    }
    if r.pos.value.sells.pending {
      var o :| o in r.orders && !FullKind(o.kind);
      OrdersAreMessages(s.inflight, k, o);
    }
  }

  /** Every position of every reachable state is the run of its own life from its own opening, with
      everything proved about such runs; in particular its tokens are accounted for. */
  lemma {:induction false} PositionsAreLives(cfg: Config, ws: set<Wallet>, es: seq<Event>, k: Key)
    requires k in Run(cfg, ws, es).positions
    ensures var p, l := Run(cfg, ws, es).positions[k], LifeOf(cfg, RowEvents(cfg, ws, es, k));
            && l.Some? && p == Lived(cfg, l.value)
            && p.returned == Legs(l.value.trace) && p.entry.spent == l.value.opening.spent
            && (SellPctsValid(cfg) ==>
                  Abs(p.entry.initial as real - p.holdings as real - Sold(cfg, Open(cfg, l.value.opening), l.value.trace))
                    <= Fills(l.value.trace) as real / 2.0)
  {
    hide Run, RowEvents, RowRun, LifeOf, PosRun, Open, Legs, Sold, Fills, SellPctsValid, PctsInRange, OrdersIn, BuysIn, BuyingsIn;
    var rs := RowEvents(cfg, ws, es, k);
    RunSimulates(cfg, ws, es, k);
    RowIsLife(cfg, rs);
    var l := LifeOf(cfg, rs).value;
    ReturnedIsLegs(cfg, Open(cfg, l.opening), l.trace);
    OpensFresh(cfg, l.opening);
    if SellPctsValid(cfg) { PctsStayValid(cfg, rs); HoldingsConserved(cfg, l.opening, l.trace); }
  }

  // ---- at most one broker buy -----------------------------------------------------------------

  /** `InitiateBuy` messages for a mint, accepted or not. */
  function Initiates(es: seq<Event>, m: Mint): nat {
    if es == [] then 0
    else Initiates(es[..|es| - 1], m) + AsNat(es[|es| - 1].InitiateBuy? && es[|es| - 1].mint == m)
  }

  /** Calls of `broker.buy` for a key. */
  function BuyCalls(cfg: Config, ws: set<Wallet>, es: seq<Event>, k: Key): nat {
    if es == [] then 0
    else
      var n := |es| - 1;
      BuyCalls(cfg, ws, es[..n], k) + AsNat(CallsBuy(ws, Run(cfg, ws, es[..n]), es[n], k))
  }

  predicate CallsBuy(ws: set<Wallet>, s: Actor, e: Event, k: Key) {
    e.Deliver? && Enabled(s, e) && s.inflight[e.i].ExecuteBuy? && s.inflight[e.i].key == k && StartsBuy(ws, s, k)
  }

  function WalletsOf(buyers: seq<(Wallet, real)>): seq<Wallet> { seq(|buyers|, i requires 0 <= i < |buyers| => buyers[i].0) }

  /** Each buy signal names a wallet once, as the wallet registry does. */
  predicate DistinctBuyers(es: seq<Event>) {
    forall i :: 0 <= i < |es| && es[i].InitiateBuy? ==> Distinct(WalletsOf(es[i].buyers))
  }

  lemma {:induction false} WalletOnce(buyers: seq<(Wallet, real)>, w: Wallet)
    requires Distinct(WalletsOf(buyers))
    ensures CountWallet(buyers, w) <= 1
    ensures CountWallet(buyers, w) == 1 ==> w in WalletsOf(buyers)
  {
    if buyers != [] {
      var n := |buyers| - 1;
      assert WalletsOf(buyers)[..n] == WalletsOf(buyers[..n]);
      WalletOnce(buyers[..n], w);
      assert WalletsOf(buyers)[n] == buyers[n].0;
      assert w in WalletsOf(buyers[..n]) ==> w in WalletsOf(buyers)[..n];
    }
  }

  lemma StepRequests(cfg: Config, ws: set<Wallet>, s: Actor, e: Event, k: Key)
    requires e.InitiateBuy? ==> Distinct(WalletsOf(e.buyers))
    ensures var re := Project(cfg, ws, s, e, k);
            && (if re.Requested? then re.n else 0) <= AsNat(e.InitiateBuy? && e.mint == k.mint)
            && (CallsBuy(ws, s, e, k) <==> re.BuyStarted?)
            && (re.BuyStarted? ==> RowEnabled(RowOf(s, k), re))
  {
    hide OrdersIn, BuysIn, BuyingsIn, CountWallet, Distinct, OpeningFor, Aborts;
    if e.InitiateBuy? { WalletOnce(e.buyers, k.wallet); }
    if e.Deliver? && Enabled(s, e) { Remove(s.inflight, e.i, k); }
  }

  lemma {:induction false} CallsAreCounted(cfg: Config, ws: set<Wallet>, es: seq<Event>, k: Key)
    requires DistinctBuyers(es)
    ensures var rs := RowEvents(cfg, ws, es, k);
            TotalRequested(rs) <= Initiates(es, k.mint) && BuyCalls(cfg, ws, es, k) == BrokerBuys(cfg, rs)
  {
    if es != [] {
      var n := |es| - 1;
      var s, before := Run(cfg, ws, es[..n]), RowEvents(cfg, ws, es[..n], k);
      assert DistinctBuyers(es[..n]);
      CallsAreCounted(cfg, ws, es[..n], k);
      StepRequests(cfg, ws, s, es[n], k);
      RunSimulates(cfg, ws, es[..n], k);
      assert RowEvents(cfg, ws, es, k)[..|before|] == before;
      hide CallsBuy, Project, RowEnabled, RowOf, WalletsKnown, Run, RowRun, DistinctBuyers;
    }
  }

  /** With at most one `InitiateBuy` per mint, over every interleaving: each (mint, wallet) gets at most
      one broker buy, and every sell order in flight for an open position was queued by that position,
      so a late order acts on the position that queued it or finds none. */
  lemma {:induction false} OneBuyPerWallet(cfg: Config, ws: set<Wallet>, es: seq<Event>, k: Key)
    requires DistinctBuyers(es) && Initiates(es, k.mint) <= 1
    ensures BuyCalls(cfg, ws, es, k) <= 1
    ensures var s, l := Run(cfg, ws, es), LifeOf(cfg, RowEvents(cfg, ws, es, k));
            k in s.positions ==>
              && l.Some? && s.positions[k] == Lived(cfg, l.value)
              && OrdersIn(s.inflight, k) <= multiset(Orders(cfg, Open(cfg, l.value.opening), l.value.trace))
  {
    hide Run, RowEvents, RowRun, LifeOf, PosRun, Open, Orders, OrdersIn, BuysIn, BuyingsIn, DistinctBuyers, Initiates, BuyCalls, Failures, FlightFlags;
    CallsAreCounted(cfg, ws, es, k);
    RunSimulates(cfg, ws, es, k);
    OneRequestOneLife(cfg, RowEvents(cfg, ws, es, k));
    RowIsLife(cfg, RowEvents(cfg, ws, es, k));
  }

  /** With at most one `InitiateBuy` per mint and no failed sell since the opening, the sells in flight for
      an open position are exactly what its flags announce: any two are one full close and one partial. */
  lemma {:induction false} SellsMatchFlags(cfg: Config, ws: set<Wallet>, es: seq<Event>, k: Key, a: Order, b: Order)
    requires DistinctBuyers(es) && Initiates(es, k.mint) <= 1 && k in Run(cfg, ws, es).positions
    requires Failures(cfg, RowEvents(cfg, ws, es, k)) == 0
    ensures var s := Run(cfg, ws, es);
            var f := s.positions[k].sells;
            && |OrdersIn(s.inflight, k)| == AsNat(f.closing) + AsNat(f.pending)
            && (multiset{a, b} <= OrdersIn(s.inflight, k) ==> FullKind(a.kind) != FullKind(b.kind))
  {
    hide Run, RowEvents, RowRun, DistinctBuyers, Initiates, BuyCalls, Failures, OrdersIn, BuysIn, BuyingsIn, FullKind, TotalRequested;
    CallsAreCounted(cfg, ws, es, k);
    RunSimulates(cfg, ws, es, k);
    NoFailuresOneOfEach(cfg, RowEvents(cfg, ws, es, k), a, b);
  }

  /** With at most one `InitiateBuy` per mint, at most six partial sells of a position ever succeed. */
  lemma {:induction false} SixFillsPerPosition(cfg: Config, ws: set<Wallet>, es: seq<Event>, k: Key)
    requires DistinctBuyers(es) && Initiates(es, k.mint) <= 1 && k in Run(cfg, ws, es).positions
    ensures var l := LifeOf(cfg, RowEvents(cfg, ws, es, k)); l.Some? && Fills(l.value.trace) <= 6
  {
    hide Run, RowEvents, RowRun, DistinctBuyers, Initiates, BuyCalls, Fills, LifeOf, TotalRequested;
    CallsAreCounted(cfg, ws, es, k);
    PositionsAreLives(cfg, ws, es, k);
    AtMostSixFills(cfg, RowEvents(cfg, ws, es, k));
  }

  // ---- a traded mint is never entered again ------------------------------------------------------

  /** The mints on which some state so far had a position. */
  function Traded(cfg: Config, ws: set<Wallet>, es: seq<Event>): set<Mint> {
    (set k | k in Run(cfg, ws, es).positions :: k.mint) + if es == [] then {} else Traded(cfg, ws, es[..|es| - 1])
  }

  predicate Covered(s: Actor, m: Mint) { AnyPosition(s.positions, m) || m in s.closed }

  /** The handlers that drop rows close the mint with its last row. */
  lemma DroppingCloses(s: Actor, m: Mint, m': Mint, ps: map<Key, Pos>)
    requires Covered(s, m) && (forall k :: k in s.positions && k.mint != m' ==> k in ps)
    ensures Covered(Finalize(s.(positions := ps), m'), m) && s.closed <= Finalize(s.(positions := ps), m').closed
  {
    if AnyPosition(s.positions, m) && m != m' {
      var k :| k in s.positions && k.mint == m;
      assert k in ps;
    }
  }

  /** Rows that stay keep their mint covered. */
  lemma KeepingCovers(s: Actor, s': Actor, m: Mint)
    requires Covered(s, m) && s.positions.Keys <= s'.positions.Keys && s.closed <= s'.closed
    ensures Covered(s', m)
  {
    if AnyPosition(s.positions, m) {
      var k :| k in s.positions && k.mint == m;
      assert k in s'.positions;
    }
  }

  lemma SellCovers(cfg: Config, ws: set<Wallet>, s: Actor, k: Key, pct: real, out: Outcome, m: Mint)
    requires Covered(s, m) && (out.SellOk? || out.SellErr?)
    ensures var s' := OnExecuteSell(ws, s, k, pct, out); Covered(s', m) && s.closed <= s'.closed
  {
    hide Touch, ClosePnl, Covered, Finalize;
    var s' := OnExecuteSell(ws, s, k, pct, out);
    if k.wallet in ws && k in s.positions && out.SellOk? && pct >= 100.0 {
      var f := Finalize(s.(positions := s.positions - {k}), k.mint);
      DroppingCloses(s, m, k.mint, s.positions - {k});
      assert f.closed == s'.closed && f.positions == s'.positions;
      SameCover(f, s', m);
    } else {
      KeepingCovers(s, s', m);
    }
  }

  lemma SameCover(s: Actor, s': Actor, m: Mint)
    requires s.positions == s'.positions && s.closed == s'.closed
    ensures Covered(s, m) == Covered(s', m)
  {
  }

  lemma DeliveryCovers(cfg: Config, ws: set<Wallet>, s: Actor, msg: Msg, out: Outcome, m: Mint)
    requires Covered(s, m) && Fits(msg, out)
    ensures var s' := OnDeliver(cfg, ws, s, msg, out); Covered(s', m) && s.closed <= s'.closed
  {
    hide Covered, Open, OpeningFor, Aborts, AnyPosition, OnExecuteSell;
    if msg.ExecuteSell? {
      SellCovers(cfg, ws, s, msg.key, msg.order.pct, out, m);
    } else {
      KeepingCovers(s, OnDeliver(cfg, ws, s, msg, out), m);
    }
  }

  lemma StepCovers(cfg: Config, ws: set<Wallet>, s: Actor, e: Event, m: Mint)
    requires Covered(s, m)
    ensures Covered(Next(cfg, ws, s, e), m) && s.closed <= Next(cfg, ws, s, e).closed
  {
    hide OnDeliver, Covered, TickOrders, TickStep, Touch, FanOut, Accepts, Finalize;
    var s' := Next(cfg, ws, s, e);
    if !Enabled(s, e) {
    } else if e.Deliver? {
      var rest := s.(inflight := Without(s.inflight, e.i));
      SameCover(s, rest, m);
      DeliveryCovers(cfg, ws, rest, s.inflight[e.i], e.out, m);
    } else if e.Abandon? {
      DroppingCloses(s, m, e.mint, map k | k in s.positions && !Drops(k, e.mint, e.wallet) :: s.positions[k]);
    } else {
      hide Enabled;
      KeepingCovers(s, s', m);
    }
  }

  /** Every mint that ever had a position still has one or is closed, after every run. */
  lemma {:induction false} TradedStaysCovered(cfg: Config, ws: set<Wallet>, es: seq<Event>, m: Mint)
    requires m in Traded(cfg, ws, es)
    ensures Covered(Run(cfg, ws, es), m)
  {
    var s := Run(cfg, ws, es);
    if !AnyPosition(s.positions, m) && es != [] {
      hide Next, Covered, Run;
      var n := |es| - 1;
      TradedStaysCovered(cfg, ws, es[..n], m);
      StepCovers(cfg, ws, Run(cfg, ws, es[..n]), es[n], m);
      LastStep(cfg, ws, es);
    }
  }

  lemma LastStep(cfg: Config, ws: set<Wallet>, es: seq<Event>)
    requires es != []
    ensures Run(cfg, ws, es) == Next(cfg, ws, Run(cfg, ws, es[..|es| - 1]), es[|es| - 1])
  {
  }

  lemma {:induction false} PrefixTraded(cfg: Config, ws: set<Wallet>, es: seq<Event>, i: nat, k: Key)
    requires i <= |es| && k in Run(cfg, ws, es[..i]).positions
    ensures k.mint in Traded(cfg, ws, es)
  {
    if i < |es| {
      assert es[..|es| - 1][..i] == es[..i];
      PrefixTraded(cfg, ws, es[..|es| - 1], i, k);
    } else {
      assert es[..i] == es;
    }
  }

  /** Once a position on a mint has been open, no later buy signal for that mint is accepted: it changes
      nothing, whatever happened in between. */
  lemma {:induction false} NeverReenter(cfg: Config, ws: set<Wallet>, es: seq<Event>, i: nat, k: Key, again: Event)
    requires i <= |es| && k in Run(cfg, ws, es[..i]).positions
    requires again.InitiateBuy? && again.mint == k.mint
    ensures Run(cfg, ws, es + [again]) == Run(cfg, ws, es)
  {
    assert (es + [again])[..|es|] == es;
    PrefixTraded(cfg, ws, es, i, k);
    TradedStaysCovered(cfg, ws, es, k.mint);
    hide FanOut, AnyPosition, Traded;
  }

  /** Aborting a spiked fill opens nothing and closes nothing: the mint stays exactly as enterable as it
      was, unlike after a normal close. */
  lemma SpikeAbortKeepsMintOpen(cfg: Config, ws: set<Wallet>, s: Actor, m: Msg, out: Outcome, mint: Mint, allowed: bool)
    requires m.Buying? && out.BuyOk? && Aborts(cfg, ws, m.key, m.lead, out.fill)
    ensures Accepts(OnDeliver(cfg, ws, s, m, out), mint, allowed) <==> Accepts(s, mint, allowed)
    ensures |OnDeliver(cfg, ws, s, m, out).notes| == |s.notes| + 1
  {
    hide Aborts;
  }

  // ---- one fan-out at a time --------------------------------------------------------------------

  lemma MarksAdd(a: seq<Msg>, b: seq<Msg>, m: Mint)
    ensures multiset(a + b)[ClearPending(m)] == multiset(a)[ClearPending(m)] + multiset(b)[ClearPending(m)]
  {
  }

  lemma MarksWithout(ms: seq<Msg>, i: nat, m: Mint)
    requires i < |ms|
    ensures multiset(ms)[ClearPending(m)] == multiset(Without(ms, i))[ClearPending(m)] + AsNat(ms[i] == ClearPending(m))
  {
    assert ms == ms[..i] + [ms[i]] + ms[i + 1..];
    assert multiset(ms) == multiset(ms[..i]) + multiset{ms[i]} + multiset(ms[i + 1..]);
  }

  lemma NoMarks(ms: seq<Msg>, m: Mint)
    requires forall x :: x in ms ==> !x.ClearPending?
    ensures multiset(ms)[ClearPending(m)] == 0
  {
    assert ClearPending(m) in multiset(ms) <==> ClearPending(m) in ms;
  }

  predicate OneMark(s: Actor, m: Mint) { multiset(s.inflight)[ClearPending(m)] == AsNat(m in s.pending) }

  lemma SignalMarks(s: Actor, e: Event, m: Mint)
    requires e.InitiateBuy? && OneMark(s, m)
    ensures OneMark(OnInitiateBuy(s, e.mint, e.pool, e.buyers, e.lead, e.allowed), m)
  {
    hide FanOut, AnyPosition;
    var f := FanOut(e.mint, e.buyers, e.lead);
    forall x | x in f ensures !x.ClearPending? { OnlyBuysInFanOut(e.mint, e.buyers, e.lead, x); }
    NoMarks(f, m);
    MarksAdd(s.inflight, f, m);
    MarksAdd(s.inflight + f, [ClearPending(e.mint)], m);
  }

  lemma TickMarks(cfg: Config, s: Actor, now: nat, ks: seq<Key>, m: Mint)
    requires Enumerates(ks, s.positions) && OneMark(s, m)
    ensures OneMark(OnTick(cfg, s, now, ks), m)
  {
    hide TickOrders, TickStep;
    var os := TickOrders(cfg, now, s.positions, ks);
    forall x | x in os ensures !x.ClearPending? { OnlySellsInTick(cfg, now, s.positions, ks, x); }
    NoMarks(os, m);
    MarksAdd(s.inflight, os, m);
  }

  /** What a delivery does to the pending marks and to the messages. */
  lemma DeliveryFields(cfg: Config, ws: set<Wallet>, s: Actor, msg: Msg, out: Outcome)
    requires Fits(msg, out)
    ensures var s' := OnDeliver(cfg, ws, s, msg, out);
            && s'.pending == (if msg.ClearPending? then s.pending - {msg.mint} else s.pending)
            && s'.inflight == if msg.ExecuteBuy? && StartsBuy(ws, s, msg.key)
                              then s.inflight + [Buying(msg.key, msg.amount, s.pools[msg.key.mint], msg.lead)]
                              else s.inflight
  {
    hide Touch, Open, OpeningFor, Aborts, ClosePnl, AnyPosition;
  }

  lemma DeliveryMarks(cfg: Config, ws: set<Wallet>, s: Actor, i: nat, out: Outcome, m: Mint)
    requires Enabled(s, Deliver(i, out)) && OneMark(s, m)
    ensures OneMark(Next(cfg, ws, s, Deliver(i, out)), m)
  {
    hide Without, OnDeliver;
    MarksWithout(s.inflight, i, m);
    var rest, msg := s.(inflight := Without(s.inflight, i)), s.inflight[i];
    DeliveryFields(cfg, ws, rest, msg, out);
    if msg.ExecuteBuy? && StartsBuy(ws, rest, msg.key) {
      MarksAdd(rest.inflight, [Buying(msg.key, msg.amount, rest.pools[msg.key.mint], msg.lead)], m);
    }
  }

  lemma StepMarks(cfg: Config, ws: set<Wallet>, s: Actor, e: Event, m: Mint)
    requires OneMark(s, m)
    ensures OneMark(Next(cfg, ws, s, e), m)
  {
    hide OnInitiateBuy, OnTick, OnDeliver, Touch, OneMark, AnyPosition;
    if !Enabled(s, e) {
    } else if e.InitiateBuy? {
      SignalMarks(s, e, m);
    } else if e.Ticked? {
      TickMarks(cfg, s, e.now, e.order, m);
    } else if e.Deliver? {
      hide Next;
      DeliveryMarks(cfg, ws, s, e.i, e.out, m);
    } else {
      QuietMarks(cfg, ws, s, e, m);
    }
  }

  lemma QuietMarks(cfg: Config, ws: set<Wallet>, s: Actor, e: Event, m: Mint)
    requires OneMark(s, m) && !e.InitiateBuy? && !e.Ticked? && !e.Deliver?
    ensures OneMark(Next(cfg, ws, s, e), m)
  {
    hide Touch, AnyPosition;
  }

  /** In every reachable state a mint is pending exactly while the one message that clears it is still to
      come: at most one fan-out per mint is under way, and no mint stays pending without it. */
  lemma {:induction false} PendingHasOneMark(cfg: Config, ws: set<Wallet>, es: seq<Event>, m: Mint)
    ensures OneMark(Run(cfg, ws, es), m)
  {
    if es != [] {
      hide Next, OneMark;
      PendingHasOneMark(cfg, ws, es[..|es| - 1], m);
      StepMarks(cfg, ws, Run(cfg, ws, es[..|es| - 1]), es[|es| - 1], m);
    }
  }

  /** A buy order that arrives after its mint was closed starts a buy exactly when the pool has been
      updated since: the order handler does not look at `closed_mints`. A buy that was already running
      does not even need that; ClosedMints has the whole condition. */
  lemma LateOrderAfterClose(cfg: Config, ws: set<Wallet>, s: Actor, k: Key, mcap: real)
    requires !AnyPosition(s.positions, k.mint)
    ensures var f := Finalize(s, k.mint);
            && k.mint in f.closed && !StartsBuy(ws, f, k)
            && (StartsBuy(ws, Next(cfg, ws, f, UpdatePool(k.mint, mcap)), k) <==> !s.paused && k.wallet in ws)
  {
    hide Touch;
    assert k in s.positions ==> AnyPosition(s.positions, k.mint);
  }

  // ---- the ledger ------------------------------------------------------------------------------

  /** The result of a life: all its confirmed legs and the last receipt, less what was spent. */
  function Settled(l: Life, received: real): real {
    if l.opening.spent > 0.0 then Legs(l.trace) + received - l.opening.spent else 0.0
  }

  /** The full close that `e` confirms in the state after `es`, if any. */
  predicate ClosesRow(cfg: Config, ws: set<Wallet>, s: Actor, e: Event) {
    e.Deliver? && Enabled(s, e) && s.inflight[e.i].ExecuteSell? && s.inflight[e.i].key in s.positions
    && e.out.SellOk? && s.inflight[e.i].order.pct >= 100.0
  }

  predicate AbortsBuy(cfg: Config, ws: set<Wallet>, s: Actor, e: Event) {
    e.Deliver? && Enabled(s, e) && s.inflight[e.i].Buying? && e.out.BuyOk?
    && Aborts(cfg, ws, s.inflight[e.i].key, s.inflight[e.i].lead, e.out.fill)
  }

  /** What event `e` after the run `es` should report: the result of the closed position from its own
      history, or of an aborted fill; nothing for failed sells, partials and abandonment. */
  function Entries(cfg: Config, ws: set<Wallet>, es: seq<Event>, e: Event): seq<real> {
    var s := Run(cfg, ws, es);
    if ClosesRow(cfg, ws, s, e) then
      var l := LifeOf(cfg, RowEvents(cfg, ws, es, s.inflight[e.i].key));
      if l.Some? then [Settled(l.value, e.out.received)] else []
    else if AbortsBuy(cfg, ws, s, e) then [e.out.fill.abortSell.value - s.inflight[e.i].amount]
    else []
  }

  function Ledger(cfg: Config, ws: set<Wallet>, es: seq<Event>): seq<real> {
    if es == [] then []
    else Ledger(cfg, ws, es[..|es| - 1]) + Entries(cfg, ws, es[..|es| - 1], es[|es| - 1])
  }

  lemma StepNotes(cfg: Config, ws: set<Wallet>, s: Actor, e: Event)
    requires WalletsKnown(ws, s)
    ensures Next(cfg, ws, s, e).notes == s.notes
            + if ClosesRow(cfg, ws, s, e) then [ClosePnl(s.positions[s.inflight[e.i].key], e.out.received)]
              else if AbortsBuy(cfg, ws, s, e) then [e.out.fill.abortSell.value - s.inflight[e.i].amount]
              else []
  {
    hide Touch, TickStep, Open, OpeningFor, Spike, FanOut, TickOrders, AnyPosition, ClosePnl, Accepts, Enumerates;
    assert s.notes + [] == s.notes;
  }

  /** One step reports what the history says. */
  lemma {:induction false} StepLedger(cfg: Config, ws: set<Wallet>, es: seq<Event>, e: Event)
    ensures Next(cfg, ws, Run(cfg, ws, es), e).notes == Run(cfg, ws, es).notes + Entries(cfg, ws, es, e)
  {
    hide Next, AbortsBuy, WalletsKnown, RowEvents, LifeOf, Run, Legs, Lived, Sold, Fills, SellPctsValid;
    var s := Run(cfg, ws, es);
    RunSimulates(cfg, ws, es, Key("", ""));
    StepNotes(cfg, ws, s, e);
    if ClosesRow(cfg, ws, s, e) {
      PositionsAreLives(cfg, ws, es, s.inflight[e.i].key);
    }
  }

  /** The PnL entries reported over a run are exactly the ledger of its history: each confirmed full
      close once, with every confirmed leg of that position since it was opened. */
  lemma {:induction false} NotesAreTheLedger(cfg: Config, ws: set<Wallet>, es: seq<Event>)
    ensures Run(cfg, ws, es).notes == Ledger(cfg, ws, es)
  {
    if es != [] {
      hide Next, Entries;
      NotesAreTheLedger(cfg, ws, es[..|es| - 1]);
      StepLedger(cfg, ws, es[..|es| - 1], es[|es| - 1]);
    }
  }

  // ---- the double-buy race ------------------------------------------------------------------------

  /** Five events in which the pending mark is cleared before the first buy has answered. */
  function Race(m: Mint, w: Wallet, lead: Lead): seq<Event> {
    var signal := InitiateBuy(m, 1.0, [(w, 1.0)], lead, true);
    [signal, Deliver(0, NoCall), Deliver(0, NoCall), signal, Deliver(1, NoCall)]
  }

  /** An accepted signal for one wallet. */
  lemma OneSignal(cfg: Config, ws: set<Wallet>, s: Actor, m: Mint, w: Wallet, lead: Lead)
    requires Accepts(s, m, true)
    ensures var s' := Next(cfg, ws, s, InitiateBuy(m, 1.0, [(w, 1.0)], lead, true));
            s' == s.(pools := s.pools[m := 1.0], pending := s.pending + {m},
                     inflight := s.inflight + [ExecuteBuy(Key(m, w), 1.0, lead), ClearPending(m)])
  {
    var buyers := [(w, 1.0)];
    assert buyers[..0] == [];
    assert FanOut(m, buyers, lead) == [ExecuteBuy(Key(m, w), 1.0, lead)];
    assert s.inflight + FanOut(m, buyers, lead) + [ClearPending(m)] == s.inflight + [ExecuteBuy(Key(m, w), 1.0, lead), ClearPending(m)];
  }

  lemma RaceStart(cfg: Config, ws: set<Wallet>, m: Mint, w: Wallet, lead: Lead)
    requires w in ws
    ensures var s := Run(cfg, ws, Race(m, w, lead)[..3]);
            s == Actor(map[], {}, {}, map[m := 1.0], false, [Buying(Key(m, w), 1.0, 1.0, lead)], [])
  {
    var es, k := Race(m, w, lead), Key(m, w);
    assert es[..3][..2] == es[..2] && es[..2][..1] == es[..1] && es[..1][..0] == [];
    var s1, s2 := Run(cfg, ws, es[..1]), Run(cfg, ws, es[..2]);
    LastStep(cfg, ws, es[..1]);
    LastStep(cfg, ws, es[..2]);
    LastStep(cfg, ws, es[..3]);
    OneSignal(cfg, ws, INIT, m, w, lead);
    hide Run;
    assert s1.inflight == [ExecuteBuy(k, 1.0, lead), ClearPending(m)];
    assert s2.inflight == [ClearPending(m), Buying(k, 1.0, 1.0, lead)];
    assert {m} - {m} == {};
  }

  /** Two buy signals for one mint can put two broker buys for the same wallet in flight: the pending
      mark goes when the orders are handed out, not when the buys have answered. */
  lemma SecondSignalBuysTwice(cfg: Config, ws: set<Wallet>, m: Mint, w: Wallet, lead: Lead)
    requires w in ws
    ensures BuyingsIn(Run(cfg, ws, Race(m, w, lead)).inflight, Key(m, w)) == 2
    ensures Initiates(Race(m, w, lead), m) == 2
  {
    RaceStart(cfg, ws, m, w, lead);
    var es, k := Race(m, w, lead), Key(m, w);
    var b := Buying(k, 1.0, 1.0, lead);
    assert es[..5] == es && es[..5][..4] == es[..4] && es[..4][..3] == es[..3];
    var s3, s4, s5 := Run(cfg, ws, es[..3]), Run(cfg, ws, es[..4]), Run(cfg, ws, es);
    LastStep(cfg, ws, es[..4]);
    LastStep(cfg, ws, es);
    OneSignal(cfg, ws, s3, m, w, lead);
    RaceSignals(m, w, lead);
    hide Run, Initiates, Next, BuyingsIn;
    assert s4.inflight == [b, ExecuteBuy(k, 1.0, lead), ClearPending(m)];
    SecondOrderStep(cfg, ws, s4, k, lead);
    CountRace(b, ClearPending(m), k);
  }

  lemma SecondOrderStep(cfg: Config, ws: set<Wallet>, s: Actor, k: Key, lead: Lead)
    requires s.inflight == [Buying(k, 1.0, 1.0, lead), ExecuteBuy(k, 1.0, lead), ClearPending(k.mint)]
    requires StartsBuy(ws, s, k) && s.pools[k.mint] == 1.0
    ensures Next(cfg, ws, s, Deliver(1, NoCall)).inflight == [Buying(k, 1.0, 1.0, lead), ClearPending(k.mint), Buying(k, 1.0, 1.0, lead)]
  {
  }

  /** Broker buys for a wallet never outnumber the signals for the mint. */
  lemma {:induction false} CallsWithinSignals(cfg: Config, ws: set<Wallet>, es: seq<Event>, k: Key)
    requires DistinctBuyers(es)
    ensures BuyCalls(cfg, ws, es, k) <= Initiates(es, k.mint)
  {
    hide Run, RowEvents, RowRun, DistinctBuyers, Initiates, BuyCalls, BrokerBuys, TotalRequested, Carried;
    CallsAreCounted(cfg, ws, es, k);
    BuysAnswerRequests(cfg, RowEvents(cfg, ws, es, k));
  }

  /** The race ends with two calls of the broker for one wallet and one mint. */
  lemma {:induction false} RaceCallsTwice(cfg: Config, ws: set<Wallet>, m: Mint, w: Wallet, lead: Lead)
    requires w in ws
    ensures DistinctBuyers(Race(m, w, lead)) && BuyCalls(cfg, ws, Race(m, w, lead), Key(m, w)) == 2
  {
    var es, k := Race(m, w, lead), Key(m, w);
    assert DistinctBuyers(es);
    hide Run, RowEvents, RowRun, DistinctBuyers, Initiates, BuyCalls, BrokerBuys, TotalRequested, Carried, Openings, OrdersIn, BuyingsIn, BuysIn;
    SecondSignalBuysTwice(cfg, ws, m, w, lead);
    CallsWithinSignals(cfg, ws, es, k);
    CallsAreCounted(cfg, ws, es, k);
    RunSimulates(cfg, ws, es, k);
    BuysAnswerRequests(cfg, RowEvents(cfg, ws, es, k));
  }

  /** For a known wallet, at most `n` signals per mint guarantee at most one broker buy, over all runs, if
      and only if `n` is at most one. */
  lemma {:induction false} OneBuyIffOneSignal(cfg: Config, ws: set<Wallet>, k: Key, n: nat)
    requires k.wallet in ws
    ensures (forall es :: DistinctBuyers(es) && Initiates(es, k.mint) <= n ==> BuyCalls(cfg, ws, es, k) <= 1) <==> n <= 1
  {
    hide DistinctBuyers, Initiates, BuyCalls;
    if n <= 1 {
      forall es | DistinctBuyers(es) && Initiates(es, k.mint) <= n ensures BuyCalls(cfg, ws, es, k) <= 1 {
        CallsWithinSignals(cfg, ws, es, k);
      }
    } else {
      var lead := Lead(None, 0);
      RaceCallsTwice(cfg, ws, k.mint, k.wallet, lead);
      RaceSignals(k.mint, k.wallet, lead);
      assert !(BuyCalls(cfg, ws, Race(k.mint, k.wallet, lead), k) <= 1);
    }
  }

  lemma InitiatesUpTo(es: seq<Event>, i: nat, m: Mint)
    requires i < |es|
    ensures Initiates(es[..i + 1], m) == Initiates(es[..i], m) + AsNat(es[i].InitiateBuy? && es[i].mint == m)
    ensures Initiates(es[..0], m) == 0
  {
    assert es[..i + 1][..i] == es[..i];
  }

  lemma RaceSignals(m: Mint, w: Wallet, lead: Lead)
    ensures Initiates(Race(m, w, lead), m) == 2
  {
    var es := Race(m, w, lead);
    hide Initiates;
    InitiatesUpTo(es, 0, m);
    InitiatesUpTo(es, 1, m);
    InitiatesUpTo(es, 2, m);
    InitiatesUpTo(es, 3, m);
    InitiatesUpTo(es, 4, m);
    assert es[..5] == es;
  }

  lemma CountRace(b: Msg, c: Msg, k: Key)
    requires b.Buying? && b.key == k && c.ClearPending?
    ensures BuyingsIn([b, c, b], k) == 2
  {
    Append([b, c], b, k);
    Append([b], c, k);
    One(b, k);
    assert [b] + [c] == [b, c] && [b, c] + [b] == [b, c, b];
  }

  // ---- a mint re-entered after an abort ------------------------------------------------------------

  /** A signal priced at a score of one SOL; its fill comes back above the abort ratio and is sold at once;
      then the mint is signalled again. */
  function AbortAndAgain(cfg: Config, m: Mint, w: Wallet, lead: Lead): seq<Event> {
    var signal := InitiateBuy(m, 1.0, [(w, 1.0)], lead, true);
    [signal, Deliver(0, NoCall), Deliver(0, NoCall), Deliver(0, SpikedFill(cfg)), signal, Deliver(0, NoCall)]
  }

  function SpikedFill(cfg: Config): Outcome {
    BuyOk(Fill(1.0, Some(MaxR(cfg.abortMax, 1.0) + 1.0), 0, Neutral, false, Some(0.5)))
  }

  lemma SpikedFillAborts(cfg: Config, ws: set<Wallet>, k: Key, lead: Lead)
    requires cfg.abortEnabled && lead.snap.Some? && lead.snap.value.mcap == 1.0 && k.wallet in ws
    ensures Aborts(cfg, ws, k, lead, SpikedFill(cfg).fill)
  {
  }

  /** From start-up, for every configuration that aborts spiked fills: the aborted buy is reported, nothing
      is open and nothing is closed, and the second signal starts a second broker buy for the wallet. */
  lemma {:induction false} AbortedMintIsBoughtAgain(cfg: Config, ws: set<Wallet>, m: Mint, w: Wallet, lead: Lead)
    requires cfg.abortEnabled && lead.snap.Some? && lead.snap.value.mcap == 1.0 && w in ws
    ensures var s := Run(cfg, ws, AbortAndAgain(cfg, m, w, lead));
            && s.notes == [-0.5] && s.positions == map[] && m !in s.closed
            && s.inflight == [ClearPending(m), Buying(Key(m, w), 1.0, 1.0, lead)]
    ensures BuyCalls(cfg, ws, AbortAndAgain(cfg, m, w, lead), Key(m, w)) == 2
  {
    var es, k := AbortAndAgain(cfg, m, w, lead), Key(m, w);
    assert es[..6] == es && es[..6][..5] == es[..5] && es[..5][..4] == es[..4] && es[..4][..3] == es[..3];
    RaceStart(cfg, ws, m, w, lead);
    assert Race(m, w, lead)[..3] == es[..3];
    var s3, s4, s5, s6 := Run(cfg, ws, es[..3]), Run(cfg, ws, es[..4]), Run(cfg, ws, es[..5]), Run(cfg, ws, es);
    LastStep(cfg, ws, es[..4]);
    LastStep(cfg, ws, es[..5]);
    LastStep(cfg, ws, es);
    AbortCalls(cfg, ws, m, w, lead);
    hide Run, BuyCalls, Initiates, AbortAndAgain;
    SpikedFillAborts(cfg, ws, k, lead);
    AbortStep(cfg, ws, s3, lead, k);
    OneSignal(cfg, ws, s4, m, w, lead);
    hide Next;
    OrderStep(cfg, ws, s5, k, lead);
  }

  lemma AbortSignals(cfg: Config, m: Mint, w: Wallet, lead: Lead)
    ensures var es := AbortAndAgain(cfg, m, w, lead); DistinctBuyers(es) && DistinctBuyers(es[..3]) && Initiates(es, m) == 2
  {
    var es := AbortAndAgain(cfg, m, w, lead);
    hide Initiates;
    InitiatesUpTo(es, 0, m);
    InitiatesUpTo(es, 1, m);
    InitiatesUpTo(es, 2, m);
    InitiatesUpTo(es, 3, m);
    InitiatesUpTo(es, 4, m);
    InitiatesUpTo(es, 5, m);
    assert es[..6] == es;
  }

  /** The first order calls the broker at the second event, the second order at the sixth. */
  lemma AbortCalls(cfg: Config, ws: set<Wallet>, m: Mint, w: Wallet, lead: Lead)
    requires cfg.abortEnabled && lead.snap.Some? && lead.snap.value.mcap == 1.0 && w in ws
    ensures BuyCalls(cfg, ws, AbortAndAgain(cfg, m, w, lead), Key(m, w)) == 2
  {
    var es, k := AbortAndAgain(cfg, m, w, lead), Key(m, w);
    var before := es[..5];
    AbortSignals(cfg, m, w, lead);
    assert before[..4] == es[..4] && es[..4][..3] == es[..3];
    RaceStart(cfg, ws, m, w, lead);
    assert Race(m, w, lead)[..3] == es[..3];
    LastStep(cfg, ws, es[..4]);
    LastStep(cfg, ws, before);
    CallsGrow(cfg, ws, es, k);
    hide Run, BuyCalls, Initiates, DistinctBuyers, AbortAndAgain;
    CallsWithinSignals(cfg, ws, es, k);
    RunningIsCalled(cfg, ws, es[..3], k);
    OneBuying(Buying(k, 1.0, 1.0, lead), k);
    SpikedFillAborts(cfg, ws, k, lead);
    AbortStep(cfg, ws, Run(cfg, ws, es[..3]), lead, k);
    OneSignal(cfg, ws, Run(cfg, ws, es[..4]), m, w, lead);
    hide Next;
    OrderStep(cfg, ws, Run(cfg, ws, before), k, lead);
  }

  /** The calls up to the third event, and the one of the sixth. */
  lemma CallsGrow(cfg: Config, ws: set<Wallet>, es: seq<Event>, k: Key)
    requires |es| == 6
    ensures BuyCalls(cfg, ws, es, k) >= BuyCalls(cfg, ws, es[..3], k) + AsNat(CallsBuy(ws, Run(cfg, ws, es[..5]), es[5], k))
  {
    hide CallsBuy, Run;
    assert es[..5][..4] == es[..4] && es[..4][..3] == es[..3];
    assert BuyCalls(cfg, ws, es[..5], k) >= BuyCalls(cfg, ws, es[..4], k) >= BuyCalls(cfg, ws, es[..3], k);
  }

  lemma OneBuying(b: Msg, k: Key)
    requires b.Buying? && b.key == k
    ensures BuyingsIn([b], k) == 1
  {
    One(b, k);
  }

  /** A buy that is running was called. */
  lemma {:induction false} RunningIsCalled(cfg: Config, ws: set<Wallet>, es: seq<Event>, k: Key)
    requires DistinctBuyers(es)
    ensures BuyingsIn(Run(cfg, ws, es).inflight, k) <= BuyCalls(cfg, ws, es, k)
  {
    hide Run, RowEvents, RowRun, DistinctBuyers, Initiates, BuyCalls, BrokerBuys, TotalRequested, Carried, Openings, OrdersIn, BuyingsIn, BuysIn;
    CallsAreCounted(cfg, ws, es, k);
    RunSimulates(cfg, ws, es, k);
    BuysAnswerRequests(cfg, RowEvents(cfg, ws, es, k));
  }

  lemma AbortStep(cfg: Config, ws: set<Wallet>, s: Actor, lead: Lead, k: Key)
    requires s.inflight == [Buying(k, 1.0, 1.0, lead)] && Aborts(cfg, ws, k, lead, SpikedFill(cfg).fill)
    ensures Next(cfg, ws, s, Deliver(0, SpikedFill(cfg))) == s.(inflight := [], notes := s.notes + [-0.5])
  {
    hide Aborts, Open, OpeningFor;
  }

  lemma OrderStep(cfg: Config, ws: set<Wallet>, s: Actor, k: Key, lead: Lead)
    requires s.inflight == [ExecuteBuy(k, 1.0, lead), ClearPending(k.mint)] && StartsBuy(ws, s, k) && s.pools[k.mint] == 1.0
    ensures Next(cfg, ws, s, Deliver(0, NoCall)) == s.(inflight := [ClearPending(k.mint), Buying(k, 1.0, 1.0, lead)])
    ensures CallsBuy(ws, s, Deliver(0, NoCall), k)
  {
  }
}
