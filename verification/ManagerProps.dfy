/**
 The whole actor against its rows: every step of the actor, seen from one (mint, wallet), is one step
 of the row machine, so what is proved about rows holds in every reachable actor state.
 */
module ManagerProps {

  import opened Common
  import opened ExitEngine
  import opened PositionSpec
  import opened ManagerSpec
  import opened RowSpec

  // ---- the traffic of one row ------------------------------------------------------------------

  function OrdersIn(ms: seq<Msg>, k: Key): multiset<Order> {
    if ms == [] then multiset{}
    else
      var m := ms[|ms| - 1];
      OrdersIn(ms[..|ms| - 1], k) + if m.ExecuteSell? && m.key == k then multiset{m.order} else multiset{}
  }

  function BuysIn(ms: seq<Msg>, k: Key): nat {
    if ms == [] then 0
    else BuysIn(ms[..|ms| - 1], k) + AsNat(ms[|ms| - 1].ExecuteBuy? && ms[|ms| - 1].key == k)
  }

  function BuyingsIn(ms: seq<Msg>, k: Key): nat {
    if ms == [] then 0
    else BuyingsIn(ms[..|ms| - 1], k) + AsNat(ms[|ms| - 1].Buying? && ms[|ms| - 1].key == k)
  }

  function RowOf(s: Actor, k: Key): Row {
    Row(if k in s.positions then Some(s.positions[k]) else None,
        OrdersIn(s.inflight, k), BuysIn(s.inflight, k), BuyingsIn(s.inflight, k))
  }

  lemma {:induction false} Concat(a: seq<Msg>, b: seq<Msg>, k: Key)
    ensures OrdersIn(a + b, k) == OrdersIn(a, k) + OrdersIn(b, k)
    ensures BuysIn(a + b, k) == BuysIn(a, k) + BuysIn(b, k)
    ensures BuyingsIn(a + b, k) == BuyingsIn(a, k) + BuyingsIn(b, k)
  {
    if b == [] {
      assert a + b == a;
    } else {
      var n := |b| - 1;
      assert (a + b)[..|a + b| - 1] == a + b[..n];
      Concat(a, b[..n], k);
    }
  }

  lemma One(m: Msg, k: Key)
    ensures OrdersIn([m], k) == if m.ExecuteSell? && m.key == k then multiset{m.order} else multiset{}
    ensures BuysIn([m], k) == AsNat(m.ExecuteBuy? && m.key == k)
    ensures BuyingsIn([m], k) == AsNat(m.Buying? && m.key == k)
  {
    assert [m][..0] == [];
  }

  /** Appending one message adds exactly its own traffic. */
  lemma Append(ms: seq<Msg>, m: Msg, k: Key)
    ensures OrdersIn(ms + [m], k) == OrdersIn(ms, k) + if m.ExecuteSell? && m.key == k then multiset{m.order} else multiset{}
    ensures BuysIn(ms + [m], k) == BuysIn(ms, k) + AsNat(m.ExecuteBuy? && m.key == k)
    ensures BuyingsIn(ms + [m], k) == BuyingsIn(ms, k) + AsNat(m.Buying? && m.key == k)
  {
    hide OrdersIn, BuysIn, BuyingsIn;
    Concat(ms, [m], k);
    One(m, k);
  }

  /** Taking one message out removes exactly its own traffic. */
  lemma Remove(ms: seq<Msg>, i: nat, k: Key)
    requires i < |ms|
    ensures var m, rest := ms[i], Without(ms, i);
            && OrdersIn(ms, k) == OrdersIn(rest, k) + (if m.ExecuteSell? && m.key == k then multiset{m.order} else multiset{})
            && BuysIn(ms, k) == BuysIn(rest, k) + AsNat(m.ExecuteBuy? && m.key == k)
            && BuyingsIn(ms, k) == BuyingsIn(rest, k) + AsNat(m.Buying? && m.key == k)
  {
    hide OrdersIn, BuysIn, BuyingsIn;
    assert ms == (ms[..i] + [ms[i]]) + ms[i + 1..];
    Concat(ms[..i] + [ms[i]], ms[i + 1..], k);
    Append(ms[..i], ms[i], k);
    Concat(ms[..i], ms[i + 1..], k);
  }

  function CountWallet(buyers: seq<(Wallet, real)>, w: Wallet): nat {
    if buyers == [] then 0 else CountWallet(buyers[..|buyers| - 1], w) + AsNat(buyers[|buyers| - 1].0 == w)
  }

  lemma {:induction false} FanOutTraffic(m: Mint, buyers: seq<(Wallet, real)>, lead: Lead, k: Key)
    ensures var f := FanOut(m, buyers, lead);
            && OrdersIn(f, k) == multiset{} && BuyingsIn(f, k) == 0
            && BuysIn(f, k) == if k.mint == m then CountWallet(buyers, k.wallet) else 0
  {
    if buyers != [] {
      var n := |buyers| - 1;
      FanOutTraffic(m, buyers[..n], lead, k);
      hide OrdersIn, BuysIn, BuyingsIn;
      Append(FanOut(m, buyers[..n], lead), ExecuteBuy(Key(m, buyers[n].0), buyers[n].1, lead), k);
    }
  }

  /** A tick queues for a row exactly what its own position asks for. */
  lemma {:induction false} TickTraffic(cfg: Config, now: nat, ps: map<Key, Pos>, ks: seq<Key>, k: Key)
    requires (forall k :: k in ks ==> k in ps) && Distinct(ks)
    ensures var os := TickOrders(cfg, now, ps, ks);
            && BuysIn(os, k) == 0 && BuyingsIn(os, k) == 0
            && OrdersIn(os, k) ==
               if k in ks && TickStep(cfg, now, ps[k]).1.Some? then multiset{TickStep(cfg, now, ps[k]).1.value} else multiset{}
  {
    hide TickStep;
    if ks != [] {
      var n := |ks| - 1;
      var rest := TickOrders(cfg, now, ps, ks[..n]);
      TickTraffic(cfg, now, ps, ks[..n], k);
      var o := TickStep(cfg, now, ps[ks[n]]).1;
      hide OrdersIn, BuysIn, BuyingsIn;
      if o.Some? { Append(rest, ExecuteSell(ks[n], o.value), k); } else { assert rest + [] == rest; }
      if k == ks[n] { assert k !in ks[..n]; }
      assert k in ks ==> k in ks[..n] || k == ks[n];
    }
  }

  // ---- each actor step is a row step -----------------------------------------------------------

  /** Positions and running buys belong to registered wallets. */
  predicate WalletsKnown(ws: set<Wallet>, s: Actor) {
    (forall k :: k in s.positions ==> k.wallet in ws)
    && forall m :: m in s.inflight && m.Buying? ==> m.key.wallet in ws
  }

  function ProjectDelivery(cfg: Config, ws: set<Wallet>, s: Actor, m: Msg, out: Outcome, k: Key): RowEvent
    requires Fits(m, out)
  {
    match m
    case ExecuteBuy(k', _, _) => if k' != k then Idle else if StartsBuy(ws, s, k) then BuyStarted else BuyDropped
    case Buying(k', amount, pool, lead) =>
      if k' != k then Idle
      else if out.BuyOk? && !Aborts(cfg, ws, k, lead, out.fill) then Opened(OpeningFor(cfg, amount, pool, lead, out.fill))
      else BuyEnded
    case ExecuteSell(k', order) => if k' != k then Idle else Answered(order, out)
    case ClearPending(_) => Idle
  }

  /** What an actor event is for the row `k`. */
  function Project(cfg: Config, ws: set<Wallet>, s: Actor, e: Event, k: Key): RowEvent {
    if !Enabled(s, e) then Idle
    else
      match e
      case InitiateBuy(m, _, buyers, _, allowed) =>
        if k.mint == m && Accepts(s, m, allowed) then Requested(CountWallet(buyers, k.wallet)) else Idle
      case SetPaused(_) => Idle
      case UpdatePool(m, mcap) => if k.mint == m then RowTouch(PoolUpdate(mcap)) else Idle
      case JupiterRefresh(m, mcap) => if k.mint == m then RowTouch(JupiterMcap(mcap)) else Idle
      case LiveUpdate(k', live) => if k' == k && live.LiveSnapshot? then RowTouch(live) else Idle
      case Ticked(now, _) => RowTick(now)
      case Abandon(m, wallet) => if Drops(k, m, wallet) then Abandoned else Idle
      case Deliver(i, out) => ProjectDelivery(cfg, ws, s, s.inflight[i], out, k)
  }

  predicate Simulates(cfg: Config, ws: set<Wallet>, s: Actor, e: Event, k: Key) {
    RowOf(Next(cfg, ws, s, e), k) == RowNext(cfg, RowOf(s, k), Project(cfg, ws, s, e, k))
  }

  /** What an accepted signal does to a row. */
  lemma InitiateRow(s: Actor, m: Mint, buyers: seq<(Wallet, real)>, lead: Lead, k: Key)
    ensures var ms := s.inflight + FanOut(m, buyers, lead) + [ClearPending(m)];
            && OrdersIn(ms, k) == OrdersIn(s.inflight, k) && BuyingsIn(ms, k) == BuyingsIn(s.inflight, k)
            && BuysIn(ms, k) == BuysIn(s.inflight, k) + if k.mint == m then CountWallet(buyers, k.wallet) else 0
  {
    var f := FanOut(m, buyers, lead);
    Concat(s.inflight, f, k);
    FanOutTraffic(m, buyers, lead, k);
    hide OrdersIn, BuysIn, BuyingsIn, CountWallet, FanOut;
    Append(s.inflight + f, ClearPending(m), k);
  }

  lemma RequestedRow(cfg: Config, r: Row, n: nat)
    ensures RowNext(cfg, r, Requested(n)) == r.(buys := r.buys + n)
  {
  }

  /** What a signal leaves of the actor as far as rows are concerned. */
  lemma SignalOutcome(s: Actor, m: Mint, pool: real, buyers: seq<(Wallet, real)>, lead: Lead, allowed: bool)
    ensures var s' := OnInitiateBuy(s, m, pool, buyers, lead, allowed);
            && s'.positions == s.positions
            && s'.inflight == if Accepts(s, m, allowed) && buyers != [] then s.inflight + FanOut(m, buyers, lead) + [ClearPending(m)] else s.inflight
  {
    hide Accepts, FanOut;
  }

  lemma InitiateProjects(cfg: Config, ws: set<Wallet>, s: Actor, e: Event, k: Key)
    requires e.InitiateBuy?
    ensures Next(cfg, ws, s, e) == OnInitiateBuy(s, e.mint, e.pool, e.buyers, e.lead, e.allowed)
    ensures Project(cfg, ws, s, e, k) ==
            if k.mint == e.mint && Accepts(s, e.mint, e.allowed) then Requested(CountWallet(e.buyers, k.wallet)) else Idle
  {
    hide OnInitiateBuy, Accepts, CountWallet;
  }

  lemma InitiateSimulates(cfg: Config, ws: set<Wallet>, s: Actor, e: Event, k: Key)
    requires e.InitiateBuy?
    ensures Simulates(cfg, ws, s, e, k)
  {
    assert CountWallet([], k.wallet) == 0;
    hide OrdersIn, BuysIn, BuyingsIn, FanOut, CountWallet, Accepts, OnInitiateBuy, RowNext, Next, Project;
    InitiateProjects(cfg, ws, s, e, k);
    SignalOutcome(s, e.mint, e.pool, e.buyers, e.lead, e.allowed);
    IdleRow(cfg, RowOf(s, k));
    RequestedRow(cfg, RowOf(s, k), CountWallet(e.buyers, k.wallet));
    InitiateRow(s, e.mint, e.buyers, e.lead, k);
  }

  /** What a tick does to a row. */
  lemma TickRow(cfg: Config, s: Actor, now: nat, ks: seq<Key>, k: Key)
    requires Enumerates(ks, s.positions)
    ensures var s', o := OnTick(cfg, s, now, ks), if k in s.positions then TickStep(cfg, now, s.positions[k]).1 else None;
            && BuysIn(s'.inflight, k) == BuysIn(s.inflight, k) && BuyingsIn(s'.inflight, k) == BuyingsIn(s.inflight, k)
            && OrdersIn(s'.inflight, k) == OrdersIn(s.inflight, k) + if o.Some? then multiset{o.value} else multiset{}
  {
    hide OrdersIn, BuysIn, BuyingsIn, TickOrders, TickStep;
    TickTraffic(cfg, now, s.positions, ks, k);
    Concat(s.inflight, TickOrders(cfg, now, s.positions, ks), k);
  }

  lemma TickSimulates(cfg: Config, ws: set<Wallet>, s: Actor, e: Event, k: Key)
    requires e.Ticked?
    ensures Simulates(cfg, ws, s, e, k)
  {
    hide OrdersIn, BuysIn, BuyingsIn, TickOrders, TickStep, Enumerates;
    if Enabled(s, e) {
      TickRow(cfg, s, e.now, e.order, k);
    }
  }

  /** What a delivery is, for the actor and for a row. */
  lemma Delivery(cfg: Config, ws: set<Wallet>, s: Actor, i: nat, out: Outcome, k: Key)
    requires Enabled(s, Deliver(i, out))
    ensures Next(cfg, ws, s, Deliver(i, out)) == OnDeliver(cfg, ws, s.(inflight := Without(s.inflight, i)), s.inflight[i], out)
    ensures Project(cfg, ws, s, Deliver(i, out), k) == ProjectDelivery(cfg, ws, s, s.inflight[i], out, k)
  {
    hide OnDeliver, ProjectDelivery;
  }

  lemma OrderSimulates(cfg: Config, ws: set<Wallet>, s: Actor, i: nat, out: Outcome, k: Key)
    requires Enabled(s, Deliver(i, out)) && s.inflight[i].ExecuteBuy?
    ensures Simulates(cfg, ws, s, Deliver(i, out), k)
  {
    hide OrdersIn, BuysIn, BuyingsIn, Without, Next, Project;
    Delivery(cfg, ws, s, i, out, k);
    var m, rest := s.inflight[i], Without(s.inflight, i);
    Remove(s.inflight, i, k);
    if StartsBuy(ws, s, m.key) {
      Append(rest, Buying(m.key, m.amount, s.pools[m.key.mint], m.lead), k);
    }
  }

  /** What the answer to a buy does to positions and messages. */
  lemma BoughtRows(cfg: Config, ws: set<Wallet>, s: Actor, m: Msg, out: Outcome)
    requires m.Buying? && Fits(m, out)
    ensures var s' := OnDeliver(cfg, ws, s, m, out);
            && s'.inflight == s.inflight
            && s'.positions == if out.BuyOk? && !Aborts(cfg, ws, m.key, m.lead, out.fill)
                               then s.positions[m.key := Open(cfg, OpeningFor(cfg, m.amount, m.pool, m.lead, out.fill))]
                               else s.positions
  {
    hide Open, OpeningFor, Aborts;
  }

  lemma BuySimulates(cfg: Config, ws: set<Wallet>, s: Actor, i: nat, out: Outcome, k: Key)
    requires Enabled(s, Deliver(i, out)) && s.inflight[i].Buying?
    ensures Simulates(cfg, ws, s, Deliver(i, out), k)
  {
    hide OrdersIn, BuysIn, BuyingsIn, Open, OpeningFor, Aborts, Without, OnDeliver, Next, Project;
    Delivery(cfg, ws, s, i, out, k);
    BoughtRows(cfg, ws, s.(inflight := Without(s.inflight, i)), s.inflight[i], out);
    Remove(s.inflight, i, k);
  }

  /** What the answer to a sell does to the row it was for. */
  lemma SoldRows(cfg: Config, ws: set<Wallet>, s: Actor, m: Msg, out: Outcome)
    requires m.ExecuteSell? && Fits(m, out)
    ensures var s' := OnDeliver(cfg, ws, s, m, out);
            && s'.inflight == s.inflight
            && s'.positions ==
               if m.key.wallet !in ws || m.key !in s.positions then s.positions
               else if Answer(s.positions[m.key], m.order.pct, out).None? then s.positions - {m.key}
               else s.positions[m.key := Answer(s.positions[m.key], m.order.pct, out).value]
  {
    hide Touch, ClosePnl, AnyPosition;
  }

  lemma TakeOut(os: multiset<Order>, o: Order)
    ensures o in os + multiset{o} && os + multiset{o} - multiset{o} == os
  {
  }

  /** The answered row, on its parts: position and outstanding orders. */
  lemma AnsweredRow(cfg: Config, r: Row, os: multiset<Order>, o: Order, out: Outcome)
    requires r.orders == os + multiset{o} && (out.SellOk? || out.SellErr?)
    ensures RowNext(cfg, r, Answered(o, out)) ==
            Row(if r.pos.None? then None else Answer(r.pos.value, o.pct, out), os, r.buys, r.buyings)
  {
    hide Answer;
    TakeOut(os, o);
  }

  lemma SellSimulates(cfg: Config, ws: set<Wallet>, s: Actor, i: nat, out: Outcome, k: Key)
    requires WalletsKnown(ws, s) && Enabled(s, Deliver(i, out)) && s.inflight[i].ExecuteSell?
    ensures Simulates(cfg, ws, s, Deliver(i, out), k)
  {
    hide OrdersIn, BuysIn, BuyingsIn, Without, OnDeliver, Answer, Next, Project, RowNext;
    Delivery(cfg, ws, s, i, out, k);
    SoldRows(cfg, ws, s.(inflight := Without(s.inflight, i)), s.inflight[i], out);
    assert k in s.positions ==> k.wallet in ws;
    hide WalletsKnown;
    Remove(s.inflight, i, k);
    if s.inflight[i].key == k {
      AnsweredRow(cfg, RowOf(s, k), OrdersIn(Without(s.inflight, i), k), s.inflight[i].order, out);
    } else {
      IdleRow(cfg, RowOf(s, k));
    }
  }

  lemma IdleRow(cfg: Config, r: Row)
    ensures RowNext(cfg, r, Idle) == r
  {
  }

  lemma ClearSimulates(cfg: Config, ws: set<Wallet>, s: Actor, i: nat, out: Outcome, k: Key)
    requires Enabled(s, Deliver(i, out)) && s.inflight[i].ClearPending?
    ensures Simulates(cfg, ws, s, Deliver(i, out), k)
  {
    hide OrdersIn, BuysIn, BuyingsIn, Without;
    Remove(s.inflight, i, k);
  }

  lemma DeliverSimulates(cfg: Config, ws: set<Wallet>, s: Actor, i: nat, out: Outcome, k: Key)
    requires WalletsKnown(ws, s) && Enabled(s, Deliver(i, out))
    ensures Simulates(cfg, ws, s, Deliver(i, out), k)
  {
    hide Simulates, WalletsKnown;
    match s.inflight[i]
    case ExecuteBuy(_, _, _) => OrderSimulates(cfg, ws, s, i, out, k);
    case Buying(_, _, _, _) => BuySimulates(cfg, ws, s, i, out, k);
    case ExecuteSell(_, _) => SellSimulates(cfg, ws, s, i, out, k);
    case ClearPending(_) => ClearSimulates(cfg, ws, s, i, out, k);
  }

  /** One actor step, projected on any row, is one step of the row machine. */
  lemma {:induction false} StepSimulates(cfg: Config, ws: set<Wallet>, s: Actor, e: Event, k: Key)
    requires WalletsKnown(ws, s)
    ensures Simulates(cfg, ws, s, e, k)
  {
    hide Simulates, WalletsKnown, Enabled;
    if !Enabled(s, e) {
      IdleSimulates(cfg, ws, s, e, k);
    } else {
      match e
      case InitiateBuy(_, _, _, _, _) => InitiateSimulates(cfg, ws, s, e, k);
      case Ticked(_, _) => TickSimulates(cfg, ws, s, e, k);
      case Deliver(i, out) => DeliverSimulates(cfg, ws, s, i, out, k);
      case _ => QuietSimulates(cfg, ws, s, e, k);
    }
  }

  lemma IdleSimulates(cfg: Config, ws: set<Wallet>, s: Actor, e: Event, k: Key)
    requires !Enabled(s, e)
    ensures Simulates(cfg, ws, s, e, k)
  {
  }

  lemma QuietSimulates(cfg: Config, ws: set<Wallet>, s: Actor, e: Event, k: Key)
    requires !e.InitiateBuy? && !e.Ticked? && !e.Deliver?
    ensures Simulates(cfg, ws, s, e, k)
  {
    hide OrdersIn, BuysIn, BuyingsIn, Touch;
  }

  lemma {:induction false} OnlyBuysInFanOut(m: Mint, buyers: seq<(Wallet, real)>, lead: Lead, msg: Msg)
    ensures msg in FanOut(m, buyers, lead) ==> msg.ExecuteBuy? && msg.key.mint == m
  {
    if buyers != [] { OnlyBuysInFanOut(m, buyers[..|buyers| - 1], lead, msg); }
  }

  lemma {:induction false} OnlySellsInTick(cfg: Config, now: nat, ps: map<Key, Pos>, ks: seq<Key>, msg: Msg)
    requires forall k :: k in ks ==> k in ps
    ensures msg in TickOrders(cfg, now, ps, ks) ==> msg.ExecuteSell?
  {
    hide TickStep;
    if ks != [] { OnlySellsInTick(cfg, now, ps, ks[..|ks| - 1], msg); }
  }

  /** Only the start of a buy puts a running buy into flight. */
  lemma NewBuyings(cfg: Config, ws: set<Wallet>, s: Actor, e: Event, m: Msg)
    requires m in Next(cfg, ws, s, e).inflight && m.Buying?
    ensures m in s.inflight || m.key.wallet in ws
  {
    hide TickOrders, FanOut, TickStep, Touch, Open, OpeningFor, Spike, ClosePnl, Accepts, AnyPosition;
    if e.InitiateBuy? {
      OnlyBuysInFanOut(e.mint, e.buyers, e.lead, m);
    } else if e.Ticked? && Enabled(s, e) {
      OnlySellsInTick(cfg, e.now, s.positions, e.order, m);
    }
  }

  /** Only the answer to a buy adds a row. */
  lemma NewPositions(cfg: Config, ws: set<Wallet>, s: Actor, e: Event, k: Key)
    requires k in Next(cfg, ws, s, e).positions && k !in s.positions
    ensures e.Deliver? && Enabled(s, e) && s.inflight[e.i].Buying? && s.inflight[e.i].key == k
    ensures e.out.BuyOk? && !Aborts(cfg, ws, k, s.inflight[e.i].lead, e.out.fill)
  {
    hide TickOrders, FanOut, TickStep, Touch, Open, OpeningFor, Spike, ClosePnl, Accepts, AnyPosition;
  }

  lemma StepWallets(cfg: Config, ws: set<Wallet>, s: Actor, e: Event)
    requires WalletsKnown(ws, s)
    ensures WalletsKnown(ws, Next(cfg, ws, s, e))
  {
    hide Next, Aborts;
    var s' := Next(cfg, ws, s, e);
    forall k | k in s'.positions ensures k.wallet in ws {
      if k !in s.positions { NewPositions(cfg, ws, s, e, k); assert Enabled(s, e) ==> s.inflight[e.i] in s.inflight; }
    }
    forall m | m in s'.inflight && m.Buying? ensures m.key.wallet in ws {
      NewBuyings(cfg, ws, s, e, m);
    }
  }

  // ---- whole runs ------------------------------------------------------------------------------

  function RowEvents(cfg: Config, ws: set<Wallet>, es: seq<Event>, k: Key): seq<RowEvent> {
    if es == [] then []
    else
      var n := |es| - 1;
      RowEvents(cfg, ws, es[..n], k) + [Project(cfg, ws, Run(cfg, ws, es[..n]), es[n], k)]
  }

  /** Every run of the actor, under any interleaving, delay, reordering and broker answers, is on each
      row a run of the row machine. */
  lemma {:induction false} RunSimulates(cfg: Config, ws: set<Wallet>, es: seq<Event>, k: Key)
    ensures WalletsKnown(ws, Run(cfg, ws, es))
    ensures RowOf(Run(cfg, ws, es), k) == RowRun(cfg, RowEvents(cfg, ws, es, k))
  {
    if es != [] {
      hide Next, RowNext, Project, WalletsKnown, RowOf;
      var n := |es| - 1;
      var s := Run(cfg, ws, es[..n]);
      RunSimulates(cfg, ws, es[..n], k);
      StepWallets(cfg, ws, s, es[n]);
      StepSimulates(cfg, ws, s, es[n], k);
      var before := RowEvents(cfg, ws, es[..n], k);
      assert RowEvents(cfg, ws, es, k)[..|before|] == before;
    }
  }
}
