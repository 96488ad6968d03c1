/**
 The demo broker (src/autobuy/broker_mock.rs), and its agreement with the holdings the position manager
 keeps. Tokens are floats on the broker's side and raw units on the manager's.
 */
module MockBroker {

  import opened Common
  import opened ExitEngine
  import opened Amounts
  import opened PositionSpec
  import opened PartialProps
  import opened ManagerSpec
  import opened RowSpec
  import opened RowRuns
  import opened ManagerProps
  import opened ManagerSafety

  datatype Holding = Holding(tokens: real, entryMcap: real)

  datatype Mock = Mock(balance: real, positions: map<Mint, Holding>)

  function PriceRatio(h: Holding, mcap: real): real {
    if h.entryMcap > 0.0 then mcap / h.entryMcap else 1.0
  }

  /** Tokens are the SOL spent, one to one; a refused buy changes nothing. */
  function Bought(m: Mock, mint: Mint, amount: real, mcap: real): (Mock, bool) {
    if m.balance < amount then (m, false)
    else (Mock(m.balance - amount, m.positions[mint := Holding(amount, mcap)]), true)
  }

  /** A sale pays the price ratio; an entry that runs out is dropped; an unknown mint is refused. */
  function SoldBy(m: Mock, mint: Mint, qty: real, mcap: real): (Mock, Option<real>) {
    if mint !in m.positions then (m, None)
    else
      var h := m.positions[mint];
      var sol := qty * PriceRatio(h, mcap);
      var left := h.tokens - qty;
      (Mock(m.balance + sol, if left <= 0.0 then m.positions - {mint} else m.positions[mint := h.(tokens := left)]), Some(sol))
  }

  class DemoBroker {
    var balance: real
    var positions: map<Mint, Holding>

    function State(): Mock
      reads this
    {
      Mock(balance, positions)
    }

    constructor (initial: real)
      ensures State() == Mock(initial, map[])
    {
      balance := initial;
      positions := map[];
    }

    method Buy(mint: Mint, amount: real, mcap: real) returns (ok: bool)
      modifies this
      ensures (State(), ok) == Bought(old(State()), mint, amount, mcap)
      ensures ok <==> old(balance) >= amount
      ensures ok ==> balance == old(balance) - amount && positions == old(positions)[mint := Holding(amount, mcap)]
      ensures !ok ==> balance == old(balance) && positions == old(positions)
    {
      if balance < amount {
        return false;
      }
      balance := balance - amount;
      positions := positions[mint := Holding(amount, mcap)];
      return true;
    }

    method Sell(mint: Mint, qty: real, mcap: real) returns (sol: Option<real>)
      modifies this
      ensures (State(), sol) == SoldBy(old(State()), mint, qty, mcap)
      ensures sol.Some? <==> mint in old(positions)
      ensures sol.None? ==> balance == old(balance) && positions == old(positions)
      ensures sol.Some? ==>
                var h := old(positions)[mint];
                && balance == old(balance) + sol.value
                && (if h.entryMcap > 0.0 then sol.value * h.entryMcap == qty * mcap else sol.value == qty)
                && (if qty < h.tokens then positions == old(positions)[mint := Holding(h.tokens - qty, h.entryMcap)]
                    else positions == old(positions) - {mint})
    {
      if mint !in positions {
        return None;
      }
      var h := positions[mint];
      var received := qty * PriceRatio(h, mcap);
      var left := h.tokens - qty;
      positions := positions[mint := h.(tokens := left)];
      if left <= 0.0 {
        positions := positions - {mint};
        assert positions == old(positions) - {mint};
      }
      balance := balance + received;
      assert State() == SoldBy(old(State()), mint, qty, mcap).0;
      return Some(received);
    }

    method ForgetPosition(mint: Mint)
      modifies this`positions
      ensures State() == old(State()).(positions := old(positions) - {mint})
    {
      positions := positions - {mint};
    }
  }

  // ---- value ---------------------------------------------------------------------------------

  /** Balance plus the entry's tokens at a market cap. */
  function Worth(m: Mock, mint: Mint, mcap: real): real {
    m.balance + if mint in m.positions then m.positions[mint].tokens * PriceRatio(m.positions[mint], mcap) else 0.0
  }

  function SellAll(m: Mock, mint: Mint, qtys: seq<real>, mcap: real): Mock {
    if qtys == [] then m else SoldBy(SellAll(m, mint, qtys[..|qtys| - 1], mcap), mint, qtys[|qtys| - 1], mcap).0
  }

  lemma SplitTokens(tokens: real, qty: real, ratio: real)
    ensures (tokens - qty) * ratio + qty * ratio == tokens * ratio
  {
  }

  /** One sale conserves worth while the entry stays; the sale that ends it loses exactly what is left
      of the tokens, valued at that price (nothing when the sale was exact). */
  lemma SaleKeepsWorth(m: Mock, mint: Mint, qty: real, mcap: real)
    requires mint in m.positions
    ensures var m', h := SoldBy(m, mint, qty, mcap).0, m.positions[mint];
            && (mint in m'.positions <==> h.tokens > qty)
            && Worth(m', mint, mcap) ==
               Worth(m, mint, mcap) - if mint in m'.positions then 0.0 else (h.tokens - qty) * PriceRatio(h, mcap)
  {
    var h := m.positions[mint];
    SplitTokens(h.tokens, qty, PriceRatio(h, mcap));
  }

  /** At a constant market cap any number of sales conserves balance plus tokens while the entry stays. */
  lemma {:induction false} SalesConserve(m: Mock, mint: Mint, qtys: seq<real>, mcap: real)
    requires mint in SellAll(m, mint, qtys, mcap).positions
    ensures mint in m.positions && Worth(SellAll(m, mint, qtys, mcap), mint, mcap) == Worth(m, mint, mcap)
    ensures SellAll(m, mint, qtys, mcap).positions[mint].entryMcap == m.positions[mint].entryMcap
  {
    if qtys != [] {
      hide PriceRatio, Worth;
      var before := SellAll(m, mint, qtys[..|qtys| - 1], mcap);
      SalesConserve(m, mint, qtys[..|qtys| - 1], mcap);
      SaleKeepsWorth(before, mint, qtys[|qtys| - 1], mcap);
    }
  }

  // ---- agreement with the manager -----------------------------------------------------------------

  /** The part of some holdings that a sell of `pct` percent asks of the broker, in tokens. */
  function Part(holdings: nat, pct: real): real { ToFloat(holdings) * pct / 100.0 }

  lemma PartIsShare(holdings: nat, pct: real)
    ensures Part(holdings, pct) * SCALE == Share(holdings, pct)
  {
    assert ToFloat(holdings) * SCALE == holdings as real;
    Rescaled(ToFloat(holdings), pct, holdings as real);
  }

  lemma Rescaled(h: real, pct: real, raw: real)
    requires raw == h * SCALE
    ensures h * pct / 100.0 * SCALE == raw * pct / 100.0
  {
  }

  /** The broker after the partial sells of a position's trace, each for the part the manager asks,
      at the market caps `at(i)` of the events. */
  function Serve(cfg: Config, p: Pos, m: Mock, mint: Mint, es: seq<PosEvent>, caps: seq<real>): Mock
    requires |caps| == |es|
  {
    if es == [] then m
    else
      var n := |es| - 1;
      var before := Serve(cfg, p, m, mint, es[..n], caps[..n]);
      if es[n].PartialSold? then SoldBy(before, mint, Part(PosRun(cfg, p, es[..n]).holdings, es[n].pct), caps[n]).0
      else before
  }

  /** While the entry is there, it is the bought amount less everything the manager sold. */
  lemma {:induction false} ServedTokens(cfg: Config, p: Pos, m: Mock, mint: Mint, es: seq<PosEvent>, caps: seq<real>)
    requires |caps| == |es|
    requires mint in Serve(cfg, p, m, mint, es, caps).positions
    ensures mint in m.positions
    ensures Serve(cfg, p, m, mint, es, caps).positions[mint].tokens * SCALE == m.positions[mint].tokens * SCALE - Sold(cfg, p, es)
  {
    if es != [] {
      hide PosStep, PosRun, PriceRatio, Part, Share, Sold;
      var n := |es| - 1;
      ServedTokens(cfg, p, m, mint, es[..n], caps[..n]);
      SoldStep(cfg, p, es);
      if es[n].PartialSold? { PartIsShare(PosRun(cfg, p, es[..n]).holdings, es[n].pct); }
    }
  }

  /** Manager and demo broker agree: while the broker holds the entry bought for a position, its tokens
      and the manager's holdings differ by at most (k + 1) / 2 raw units after k successful partials. */
  lemma {:induction false} HoldingsAgree(cfg: Config, o: Opening, es: seq<PosEvent>, m: Mock, mint: Mint, caps: seq<real>)
    requires |caps| == |es| && PctsInRange(es)
    requires mint in m.positions && m.positions[mint].tokens == o.tokens && 0.0 <= o.tokens * SCALE <= U64_MAX as real
    requires mint in Serve(cfg, Open(cfg, o), m, mint, es, caps).positions
    ensures var q := PosRun(cfg, Open(cfg, o), es);
            Abs(Serve(cfg, Open(cfg, o), m, mint, es, caps).positions[mint].tokens * SCALE - q.holdings as real)
              <= (Fills(es) + 1) as real / 2.0
  {
    hide PosRun, Sold, Fills, Serve, PctsInRange, PushTick;
    var p := Open(cfg, o);
    assert p.entry.initial == RoundU64(o.tokens * SCALE);
    RoundError(o.tokens * SCALE);
    hide Open, RoundU64;
    HoldingsConserved(cfg, o, es);
    ServedTokens(cfg, p, m, mint, es, caps);
    assert (Fills(es) + 1) as real / 2.0 == Fills(es) as real / 2.0 + 0.5;
  }

  /** So for any reachable position of a mint that was signalled once, with valid sell percentages, the
      two differ by at most 3.5 raw units ever. */
  lemma {:induction false} WithinThreeAndAHalfUnits(cfg: Config, rs: seq<RowEvent>, m: Mock, mint: Mint, caps: seq<real>)
    requires SellPctsValid(cfg) && TotalRequested(rs) <= 1 && LifeOf(cfg, rs).Some?
    requires var l := LifeOf(cfg, rs).value;
             && |caps| == |l.trace| && mint in m.positions && m.positions[mint].tokens == l.opening.tokens
             && 0.0 <= l.opening.tokens * SCALE <= U64_MAX as real
             && mint in Serve(cfg, Open(cfg, l.opening), m, mint, l.trace, caps).positions
    ensures RowRun(cfg, rs).pos.Some?
    ensures var l := LifeOf(cfg, rs).value;
            Abs(Serve(cfg, Open(cfg, l.opening), m, mint, l.trace, caps).positions[mint].tokens * SCALE
                - RowRun(cfg, rs).pos.value.holdings as real) <= 3.5
  {
    hide RowRun, LifeOf, Open, PosRun, Orders, Fills, Serve, PctsInRange, SellPctsValid, Carried, Abs, TotalRequested;
    var l := LifeOf(cfg, rs).value;
    RowIsLife(cfg, rs);
    PctsStayValid(cfg, rs);
    AtMostSixFills(cfg, rs);
    HoldingsAgree(cfg, l.opening, l.trace, m, mint, caps);
  }

  /** In every reachable state of the actor, for a mint with at most one signal: while the broker holds
      the entry bought for an open position, the two never differ by more than 3.5 raw units. */
  lemma {:induction false} ActorAndBrokerAgree(cfg: Config, ws: set<Wallet>, es: seq<Event>, k: Key, m: Mock, caps: seq<real>)
    requires SellPctsValid(cfg) && DistinctBuyers(es) && Initiates(es, k.mint) <= 1 && k in Run(cfg, ws, es).positions
    ensures LifeOf(cfg, RowEvents(cfg, ws, es, k)).Some?
    ensures var l := LifeOf(cfg, RowEvents(cfg, ws, es, k)).value;
            && |caps| == |l.trace| && k.mint in m.positions && m.positions[k.mint].tokens == l.opening.tokens
            && 0.0 <= l.opening.tokens * SCALE <= U64_MAX as real
            && k.mint in Serve(cfg, Open(cfg, l.opening), m, k.mint, l.trace, caps).positions ==>
              Abs(Serve(cfg, Open(cfg, l.opening), m, k.mint, l.trace, caps).positions[k.mint].tokens * SCALE
                  - Run(cfg, ws, es).positions[k].holdings as real) <= 3.5
  {
    hide Run, RowEvents, RowRun, DistinctBuyers, Initiates, BuyCalls, Fills, LifeOf, Serve, Open, Abs, SellPctsValid,
         OrdersIn, BuysIn, BuyingsIn, TotalRequested, PosRun, Legs, Sold;
    var rs := RowEvents(cfg, ws, es, k);
    CallsAreCounted(cfg, ws, es, k);
    PositionsAreLives(cfg, ws, es, k);
    RunSimulates(cfg, ws, es, k);
    var l := LifeOf(cfg, rs).value;
    if |caps| == |l.trace| && k.mint in m.positions && m.positions[k.mint].tokens == l.opening.tokens
       && 0.0 <= l.opening.tokens * SCALE <= U64_MAX as real
       && k.mint in Serve(cfg, Open(cfg, l.opening), m, k.mint, l.trace, caps).positions {
      WithinThreeAndAHalfUnits(cfg, rs, m, k.mint, caps);
    }
  }
}
