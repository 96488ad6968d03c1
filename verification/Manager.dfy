/**
 The actor of src/autobuy/manager.rs with its maps and sets updated in place and its positions as
 mutable objects. `Abs` is its value as ManagerSpec sees it; every handler is proved to do exactly what
 the transition system says.
 */
module Manager {

  import opened Common
  import opened ExitEngine
  import opened PositionSpec
  import opened Positions
  import opened ManagerSpec

  class PositionManager {
    const cfg: Config
    const wallets: set<Wallet>
    var positions: map<Key, Position>
    var pending: set<Mint>
    var closed: set<Mint>
    var pools: map<Mint, real>
    var paused: bool
    var inflight: seq<Msg>
    var notes: seq<real>

    /** No two rows share a position object. */
    ghost predicate Valid()
      reads this`positions
    {
      forall j, k :: j in positions && k in positions && j != k ==> positions[j] != positions[k]
    }

    ghost function Rows(): map<Key, Pos>
      reads this`positions, positions.Values
    {
      map k | k in positions :: positions[k].State()
    }

    ghost function Abs(): Actor
      reads this, positions.Values
    {
      Actor(Rows(), pending, closed, pools, paused, inflight, notes)
    }

    constructor (cfg: Config, wallets: set<Wallet>)
      ensures this.cfg == cfg && this.wallets == wallets
      ensures Valid() && Abs() == INIT && positions == map[]
    {
      this.cfg := cfg;
      this.wallets := wallets;
      positions := map[];
      pending := {};
      closed := {};
      pools := map[];
      paused := false;
      inflight := [];
      notes := [];
      new;
      assert Rows() == map[];
    }

    /** `any_position_for_mint`. */
    method AnyPositionForMint(m: Mint) returns (found: bool)
      ensures found == AnyPosition(Rows(), m)
    {
      found := exists k :: k in positions.Keys && k.mint == m;
      assert forall k :: k in positions.Keys <==> k in Rows();
    }

    /** The spawned fan-out: one order per wallet, then the end of the pending mark. */
    method FanOutBuys(m: Mint, buyers: seq<(Wallet, real)>, lead: Lead)
      modifies this`inflight
      ensures inflight == old(inflight) + FanOut(m, buyers, lead) + [ClearPending(m)]
    {
      ghost var sent := inflight;
      var i := 0;
      while i < |buyers|
        invariant 0 <= i <= |buyers|
        invariant inflight == sent + FanOut(m, buyers[..i], lead)
      {
        assert buyers[..i + 1][..i] == buyers[..i];
        inflight := inflight + [ManagerSpec.ExecuteBuy(Key(m, buyers[i].0), buyers[i].1, lead)];
        i := i + 1;
      }
      assert buyers[..i] == buyers;
      inflight := inflight + [ClearPending(m)];
    }

    method InitiateBuy(m: Mint, pool: real, buyers: seq<(Wallet, real)>, lead: Lead, allowed: bool)
      modifies this`pending, this`pools, this`inflight
      ensures Abs() == OnInitiateBuy(old(Abs()), m, pool, buyers, lead, allowed)
    {
      hide FanOut, AnyPosition, Rows;
      if paused {
        return;
      }
      var open := AnyPositionForMint(m);
      if open || m in pending || m in closed {
        return;
      }
      if !allowed {
        return;
      }
      pending := pending + {m};
      pools := pools[m := pool];
      if buyers == [] {
        pending := pending - {m};
        assert pending == old(pending);
        return;
      }
      FanOutBuys(m, buyers, lead);
    }

    /** `ExecuteBuy`: the broker call is spawned, its answer arrives later. */
    method ExecuteBuy(k: Key, amount: real, lead: Lead)
      requires Valid()
      modifies this`inflight
      ensures Valid() && Abs() == OnExecuteBuy(wallets, old(Abs()), k, amount, lead)
    {
      assert k in positions <==> k in Rows();
      if paused {
        return;
      }
      if k.wallet !in wallets {
        return;
      }
      if k in positions {
        return;
      }
      if k.mint !in pools {
        return;
      }
      inflight := inflight + [Buying(k, amount, pools[k.mint], lead)];
    }

    /** `maybe_finalize_closed_mint`. */
    method MaybeFinalizeClosedMint(m: Mint)
      requires Valid()
      modifies this`closed, this`pools
      ensures Valid() && Abs() == Finalize(old(Abs()), m)
    {
      var open := AnyPositionForMint(m);
      if !open {
        closed := closed + {m};
        pools := pools - {m};
      }
    }

    /** `apply_buy_result`. */
    method BuyCompleted(k: Key, amount: real, pool: real, lead: Lead, out: Outcome)
      requires Valid() && (out.BuyOk? || out.BuyErr?)
      modifies this`positions, this`closed, this`notes
      ensures Valid() && Abs() == OnBuyCompleted(cfg, wallets, old(Abs()), k, amount, pool, lead, out)
      ensures fresh(positions.Values - old(positions.Values))
    {
      hide Open, OpeningFor, Spike;
      match out
      case BuyErr(unavailable) =>
        var open := AnyPositionForMint(k.mint);
        if unavailable && !open {
          closed := closed + {k.mint};
        }
      case BuyOk(f) =>
        if Spike(cfg, lead.snap, f.mcap) && k.wallet in wallets && f.abortSell.Some? {
          notes := notes + [f.abortSell.value - amount];
          return;
        }
        OpenRow(k, OpeningFor(cfg, amount, pool, lead, f));
    }

    method OpenRow(k: Key, o: Opening)
      requires Valid()
      modifies this`positions
      ensures Valid() && Rows() == old(Rows())[k := Open(cfg, o)]
      ensures fresh(positions.Values - old(positions.Values))
    {
      hide Open;
      ghost var rows := Rows();
      var p := new Position(cfg, o);
      positions := positions[k := p];
      assert Rows() == rows[k := p.State()];
    }

    /** An event on one row, in place. */
    method UpdateRow(k: Key, e: PosEvent)
      requires Valid() && k in positions && !e.Tick?
      modifies positions[k]
      ensures Rows() == old(Rows())[k := Touch(old(Rows())[k], e)]
    {
      hide Touch;
      positions[k].Apply(e);
      assert forall j :: j in positions && j != k ==> positions[j].State() == old(positions[j].State());
    }

    /** `ExecuteSell`: the broker has answered; only a full sell that succeeded ends the row. */
    method ExecuteSell(k: Key, pct: real, out: Outcome)
      requires Valid() && (out.SellOk? || out.SellErr?)
      modifies this`positions, this`closed, this`pools, this`notes, positions.Values
      ensures Valid() && Abs() == OnExecuteSell(wallets, old(Abs()), k, pct, out)
      ensures positions.Values <= old(positions.Values)
    {
      hide Touch, ClosePnl, AnyPosition, Finalize;
      ghost var rows := Rows();
      assert k in positions <==> k in rows;
      if k.wallet !in wallets || k !in positions {
        return;
      }
      match out
      case SellErr(manual) => UpdateRow(k, SellFailed(pct, manual));
      case SellOk(received) =>
        if pct < 100.0 {
          UpdateRow(k, PartialSold(pct, received));
        } else {
          CloseRow(k, received);
        }
    }

    method CloseRow(k: Key, received: real)
      requires Valid() && k in positions
      modifies this`positions, this`closed, this`pools, this`notes
      ensures Valid() && positions == old(positions) - {k}
      ensures var s := old(Abs());
              && k in s.positions
              && Abs() == Finalize(s.(positions := s.positions - {k}), k.mint).(notes := s.notes + [ClosePnl(s.positions[k], received)])
    {
      hide ClosePnl, AnyPosition;
      ghost var rows := Rows();
      var pnl := ClosePnl(positions[k].State(), received);
      positions := positions - {k};
      assert Rows() == rows - {k};
      MaybeFinalizeClosedMint(k.mint);
      notes := notes + [pnl];
    }

    // ---- market data -------------------------------------------------------------------------

    /** An event on every row of one mint. */
    method TouchRows(m: Mint, e: PosEvent)
      requires Valid() && !e.Tick?
      modifies positions.Values
      ensures Rows() == TouchMint(old(Rows()), m, e)
    {
      hide Touch;
      var keys := positions.Keys;
      while keys != {}
        invariant keys <= positions.Keys
        invariant forall k :: k in positions ==>
          positions[k].State() == if k in keys || k.mint != m then old(positions[k].State()) else Touch(old(positions[k].State()), e)
        decreases |keys|
      {
        var k :| k in keys;
        keys := keys - {k};
        if k.mint == m {
          positions[k].Apply(e);
        }
      }
    }

    method UpdatePool(m: Mint, mcap: real)
      requires Valid()
      modifies this`pools, positions.Values
      ensures Valid()
      ensures var s := old(Abs()); Abs() == s.(pools := s.pools[m := mcap], positions := TouchMint(s.positions, m, PoolUpdate(mcap)))
    {
      hide Touch;
      pools := pools[m := mcap];
      TouchRows(m, PoolUpdate(mcap));
    }

    method ApplyExitMcapRefresh(m: Mint, mcap: real)
      requires Valid()
      modifies positions.Values
      ensures var s := old(Abs()); Abs() == s.(positions := TouchMint(s.positions, m, JupiterMcap(mcap)))
    {
      hide Touch;
      TouchRows(m, JupiterMcap(mcap));
    }

    method ApplyLiveSnapshot(k: Key, live: PosEvent)
      requires Valid()
      modifies positions.Values
      ensures Abs() == OnLive(old(Abs()), k, live)
    {
      hide Touch;
      ghost var rows := Rows();
      assert k in positions <==> k in rows;
      if live.LiveSnapshot? && k in positions {
        UpdateRow(k, live);
      }
    }

    // ---- ticks -------------------------------------------------------------------------------

    /** `process_positions`: every row once, in the order the map yields them. */
    method Tick(now: nat) returns (ghost order: seq<Key>)
      requires Valid()
      modifies this`inflight, positions.Values
      ensures Valid() && Enumerates(order, old(Rows())) && Abs() == OnTick(cfg, old(Abs()), now, order)
    {
      hide TickStep, TickOrders;
      order := TickRows(now, Rows());
    }

    method TickRows(now: nat, ghost rows: map<Key, Pos>) returns (ghost order: seq<Key>)
      requires Valid() && rows.Keys == positions.Keys && forall k :: k in positions ==> positions[k].State() == rows[k]
      modifies this`inflight, positions.Values
      ensures (forall k :: k in order <==> k in rows) && Distinct(order)
      ensures inflight == old(inflight) + TickOrders(cfg, now, rows, order)
      ensures forall k :: k in positions ==> positions[k].State() == TickStep(cfg, now, rows[k]).0
    {
      hide TickStep, TickOrders, Rows, Distinct;
      var keys := positions.Keys;
      order := [];
      NoOrders(cfg, now, rows);
      while keys != {}
        invariant keys <= positions.Keys
        invariant forall k :: k in order <==> k in rows && k !in keys
        invariant Distinct(order)
        invariant inflight == old(inflight) + TickOrders(cfg, now, rows, order)
        invariant forall k :: k in positions ==>
          positions[k].State() == if k in keys then rows[k] else TickStep(cfg, now, rows[k]).0
        decreases |keys|
      {
        var k :| k in keys;
        keys := keys - {k};
        TickRow(k, now, rows[k]);
        MoreOrders(cfg, now, rows, order, k);
        order := order + [k];
      }
    }

    /** One row's share of a tick; its order, if any, goes into flight. */
    method TickRow(k: Key, now: nat, ghost p: Pos)
      requires k in positions && positions[k].State() == p
      modifies this`inflight, positions[k]
      ensures positions[k].State() == TickStep(cfg, now, p).0
      ensures var o := TickStep(cfg, now, p).1;
              inflight == old(inflight) + if o.Some? then [ManagerSpec.ExecuteSell(k, o.value)] else []
    {
      hide TickStep;
      var o := positions[k].Tick(cfg, now);
      if o.Some? {
        inflight := inflight + [ManagerSpec.ExecuteSell(k, o.value)];
      }
    }

    static lemma NoOrders(cfg: Config, now: nat, rows: map<Key, Pos>)
      ensures TickOrders(cfg, now, rows, []) == [] && Distinct<Key>([])
    {
    }

    static lemma MoreOrders(cfg: Config, now: nat, rows: map<Key, Pos>, order: seq<Key>, k: Key)
      requires (forall j :: j in order ==> j in rows) && k in rows
      ensures var o := TickStep(cfg, now, rows[k]).1;
              TickOrders(cfg, now, rows, order + [k]) ==
              TickOrders(cfg, now, rows, order) + if o.Some? then [ManagerSpec.ExecuteSell(k, o.value)] else []
      ensures Distinct(order) && k !in order ==> Distinct(order + [k])
    {
      hide TickStep;
      assert (order + [k])[..|order|] == order;
    }

    // ---- the message loop ----------------------------------------------------------------------

    /** `AbandonPosition`. */
    method AbandonPosition(m: Mint, wallet: Option<Wallet>)
      requires Valid()
      modifies this`positions, this`closed, this`pools
      ensures Valid() && Abs() == OnAbandon(old(Abs()), m, wallet)
      ensures positions.Values <= old(positions.Values)
    {
      hide AnyPosition, Finalize, Rows;
      DropRows(m, wallet);
      MaybeFinalizeClosedMint(m);
    }

    /** The rows of the mint, or of one wallet on it, leave the map. */
    method DropRows(m: Mint, wallet: Option<Wallet>)
      requires Valid()
      modifies this`positions
      ensures Valid() && Rows() == (map k | k in old(Rows()) && !Drops(k, m, wallet) :: old(Rows())[k])
      ensures positions.Values <= old(positions.Values)
    {
      hide Drops;
      ghost var rows := Rows();
      positions := map k | k in positions && !Drops(k, m, wallet) :: positions[k];
      assert Rows() == map k | k in rows && !Drops(k, m, wallet) :: rows[k];
    }

    /** A message that was in flight arrives; a call it stands for ends with `out`. */
    method Receive(i: nat, out: Outcome)
      requires Valid()
      modifies this, positions.Values
      ensures Valid() && Abs() == Next(cfg, wallets, old(Abs()), Deliver(i, out))
      ensures fresh(positions.Values - old(positions.Values))
    {
      hide Open, OpeningFor, Spike, Touch, TickStep, ClosePnl, AnyPosition, Finalize, OnInitiateBuy, OnTick, OnBuyCompleted, OnExecuteBuy, OnExecuteSell;
      if i >= |inflight| || !Fits(inflight[i], out) {
        return;
      }
      var m := inflight[i];
      inflight := inflight[..i] + inflight[i + 1..];
      match m
      case ExecuteBuy(k, amount, lead) => ExecuteBuy(k, amount, lead);
      case Buying(k, amount, pool, lead) => BuyCompleted(k, amount, pool, lead, out);
      case ExecuteSell(k, order) => ExecuteSell(k, order.pct, out);
      case ClearPending(mint) => pending := pending - {mint};
    }

    /** One iteration of the message loop. `did` is the event as it happened: a tick fixes its order. */
    method Handle(e: Event) returns (ghost did: Event)
      requires Valid()
      modifies this, positions.Values
      ensures Valid() && Abs() == Next(cfg, wallets, old(Abs()), did)
      ensures if e.Ticked? then did.Ticked? && did.now == e.now && Enabled(old(Abs()), did) else did == e
      ensures fresh(positions.Values - old(positions.Values))
    {
      hide OnDeliver, OnInitiateBuy, OnTick, OnAbandon, OnLive, TouchMint, Fits;
      did := e;
      match e
      case InitiateBuy(m, pool, buyers, lead, allowed) => InitiateBuy(m, pool, buyers, lead, allowed);
      case SetPaused(b) => paused := b;
      case UpdatePool(m, mcap) => UpdatePool(m, mcap);
      case JupiterRefresh(m, mcap) => ApplyExitMcapRefresh(m, mcap);
      case LiveUpdate(k, live) => ApplyLiveSnapshot(k, live);
      case Ticked(now, _) =>
        ghost var order := Tick(now);
        did := Ticked(now, order);
      case Abandon(m, wallet) => AbandonPosition(m, wallet);
      case Deliver(i, out) => Receive(i, out);
    }
  }

  /** The actor from start-up through any sequence of messages: its state is that of a run of the
      transition system, so every result about runs is a result about this object. */
  method RunActor(cfg: Config, wallets: set<Wallet>, es: seq<Event>) returns (a: PositionManager, ghost did: seq<Event>)
    ensures a.Valid() && |did| == |es| && a.Abs() == Run(cfg, wallets, did)
    ensures forall i :: 0 <= i < |es| && !es[i].Ticked? ==> did[i] == es[i]
  {
    hide Next;
    a := new PositionManager(cfg, wallets);
    did := [];
    for i := 0 to |es|
      invariant fresh(a) && fresh(a.positions.Values) && a.cfg == cfg && a.wallets == wallets
      invariant a.Valid() && |did| == i && a.Abs() == Run(cfg, wallets, did)
      invariant forall j :: 0 <= j < i && !es[j].Ticked? ==> did[j] == es[j]
    {
      ghost var d := a.Handle(es[i]);
      ghost var longer := did + [d];
      assert longer[..|did|] == did;
      did := longer;
    }
  }
}
