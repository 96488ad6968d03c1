/**
 What a closed mint is protected from, and what not. `InitiateBuy` refuses it, but the order handler
 and the buy answer do not look at `closed_mints`: whatever was already in flight when the mint closed
 can still open a position on it.
 */
module ClosedMints {

  import opened Common
  import opened ExitEngine
  import opened PositionSpec
  import opened ManagerSpec
  import opened ManagerProps
  import opened ManagerSafety

  /** A message that can still lead to a position on `m`: a running buy, or an order of a known wallet. */
  predicate CanBuy(ws: set<Wallet>, msg: Msg, m: Mint) {
    (msg.Buying? && msg.key.mint == m) || (msg.ExecuteBuy? && msg.key.mint == m && msg.key.wallet in ws)
  }

  predicate Owed(ws: set<Wallet>, s: Actor, m: Mint) { exists msg :: msg in s.inflight && CanBuy(ws, msg, m) }

  /** The state after more events. */
  function RunFrom(cfg: Config, ws: set<Wallet>, s: Actor, es: seq<Event>): Actor {
    if es == [] then s else Next(cfg, ws, RunFrom(cfg, ws, s, es[..|es| - 1]), es[|es| - 1])
  }

  lemma {:induction false} RunContinues(cfg: Config, ws: set<Wallet>, es: seq<Event>, more: seq<Event>)
    ensures Run(cfg, ws, es + more) == RunFrom(cfg, ws, Run(cfg, ws, es), more)
  {
    hide Next;
    if more == [] {
      assert es + more == es;
    } else {
      assert (es + more)[..|es + more| - 1] == es + more[..|more| - 1];
      RunContinues(cfg, ws, es, more[..|more| - 1]);
    }
  }

  // ---- closed and quiet stays empty ------------------------------------------------------------

  predicate Quiet(ws: set<Wallet>, s: Actor, m: Mint) {
    m in s.closed && !AnyPosition(s.positions, m) && !Owed(ws, s, m)
  }

  /** A message that can buy comes from an accepted signal, or from an order that could already buy. */
  lemma NewBuyers(cfg: Config, ws: set<Wallet>, s: Actor, e: Event, msg: Msg, m: Mint)
    requires msg in Next(cfg, ws, s, e).inflight && msg !in s.inflight && CanBuy(ws, msg, m) && m in s.closed
    ensures Owed(ws, s, m)
  {
    hide TickOrders, FanOut, TickStep, Touch, Open, OpeningFor, Spike, ClosePnl, AnyPosition, Owed;
    if e.InitiateBuy? {
      OnlyBuysInFanOut(e.mint, e.buyers, e.lead, msg);
    } else if e.Ticked? && Enabled(s, e) {
      OnlySellsInTick(cfg, e.now, s.positions, e.order, msg);
    } else if e.Deliver? && Enabled(s, e) {
      OrderOwes(ws, s, s.inflight[e.i], m);
    }
  }

  lemma OrderOwes(ws: set<Wallet>, s: Actor, msg: Msg, m: Mint)
    requires msg in s.inflight
    ensures CanBuy(ws, msg, m) ==> Owed(ws, s, m)
  {
  }

  lemma StepQuiet(cfg: Config, ws: set<Wallet>, s: Actor, e: Event, m: Mint)
    requires Quiet(ws, s, m)
    ensures Quiet(ws, Next(cfg, ws, s, e), m)
  {
    hide Next, Aborts;
    var s' := Next(cfg, ws, s, e);
    StepCovers(cfg, ws, s, e, m);
    if AnyPosition(s'.positions, m) {
      var k :| k in s'.positions && k.mint == m;
      NewPositions(cfg, ws, s, e, k);
      OrderOwes(ws, s, s.inflight[e.i], m);
    }
    if Owed(ws, s', m) {
      var msg :| msg in s'.inflight && CanBuy(ws, msg, m);
      if msg !in s.inflight { NewBuyers(cfg, ws, s, e, msg, m); } else { OrderOwes(ws, s, msg, m); }
    }
  }

  /** A closed mint with no row and nothing in flight that can buy it never has a position again. */
  lemma {:induction false} QuietStaysEmpty(cfg: Config, ws: set<Wallet>, s: Actor, m: Mint, more: seq<Event>)
    requires Quiet(ws, s, m)
    ensures Quiet(ws, RunFrom(cfg, ws, s, more), m)
  {
    if more != [] {
      hide Next, Quiet;
      QuietStaysEmpty(cfg, ws, s, m, more[..|more| - 1]);
      StepQuiet(cfg, ws, RunFrom(cfg, ws, s, more[..|more| - 1]), more[|more| - 1], m);
    }
  }

  // ---- what is owed can arrive -------------------------------------------------------------------

  /** A fill the spike check cannot object to. */
  const PLAIN_FILL := BuyOk(Fill(0.0, None, 0, Neutral, false, None))

  lemma FromOne(cfg: Config, ws: set<Wallet>, s: Actor, es: seq<Event>, e: Event)
    ensures RunFrom(cfg, ws, s, es + [e]) == Next(cfg, ws, RunFrom(cfg, ws, s, es), e)
    ensures RunFrom(cfg, ws, s, []) == s
  {
    hide Next;
    assert (es + [e])[..|es|] == es;
  }

  /** A running buy that answers opens its row, whether the mint is closed or not. */
  lemma BuyingOpens(cfg: Config, ws: set<Wallet>, s: Actor, i: nat)
    requires i < |s.inflight| && s.inflight[i].Buying?
    ensures var k, s' := s.inflight[i].key, Next(cfg, ws, s, Deliver(i, PLAIN_FILL));
            k in s'.positions && AnyPosition(s'.positions, k.mint) && s'.closed == s.closed && s'.pools == s.pools
  {
    hide Open, OpeningFor;
    var k, s' := s.inflight[i].key, Next(cfg, ws, s, Deliver(i, PLAIN_FILL));
    assert !Aborts(cfg, ws, k, s.inflight[i].lead, PLAIN_FILL.fill);
    assert k in s'.positions;
  }

  /** The continuation in which an order of a known wallet gets a pool, buys and opens. */
  function LateBuy(s: Actor, i: nat, m: Mint): seq<Event> {
    [SetPaused(false), UpdatePool(m, 1.0), Deliver(i, NoCall), Deliver(SatSub(|s.inflight|, 1), PLAIN_FILL)]
  }

  lemma OrderBuys(cfg: Config, ws: set<Wallet>, s: Actor, i: nat, m: Mint)
    requires i < |s.inflight| && s.inflight[i].ExecuteBuy? && CanBuy(ws, s.inflight[i], m) && !AnyPosition(s.positions, m)
    ensures var s3 := Next(cfg, ws, Next(cfg, ws, Next(cfg, ws, s, SetPaused(false)), UpdatePool(m, 1.0)), Deliver(i, NoCall));
            |s3.inflight| == |s.inflight| && s3.inflight[|s.inflight| - 1].Buying? && s3.inflight[|s.inflight| - 1].key.mint == m
  {
    hide Touch;
    assert s.inflight[i].key !in s.positions;
  }

  lemma OwedArrives(cfg: Config, ws: set<Wallet>, s: Actor, i: nat, m: Mint)
    requires i < |s.inflight| && CanBuy(ws, s.inflight[i], m) && !AnyPosition(s.positions, m)
    ensures exists more :: AnyPosition(RunFrom(cfg, ws, s, more).positions, m)
  {
    hide Next, AnyPosition, RunFrom;
    FromOne(cfg, ws, s, [], Deliver(i, PLAIN_FILL));
    if s.inflight[i].Buying? {
      BuyingOpens(cfg, ws, s, i);
      assert [] + [Deliver(i, PLAIN_FILL)] == [Deliver(i, PLAIN_FILL)];
      assert AnyPosition(RunFrom(cfg, ws, s, [Deliver(i, PLAIN_FILL)]).positions, m);
    } else {
      var es := LateBuy(s, i, m);
      OrderBuys(cfg, ws, s, i, m);
      FromOne(cfg, ws, s, [], es[0]);
      FromOne(cfg, ws, s, [es[0]], es[1]);
      FromOne(cfg, ws, s, [es[0], es[1]], es[2]);
      FromOne(cfg, ws, s, [es[0], es[1], es[2]], es[3]);
      assert [] + [es[0]] == [es[0]] && [es[0]] + [es[1]] == [es[0], es[1]];
      assert [es[0], es[1]] + [es[2]] == [es[0], es[1], es[2]] && [es[0], es[1], es[2]] + [es[3]] == es;
      var s3 := RunFrom(cfg, ws, s, [es[0], es[1], es[2]]);
      BuyingOpens(cfg, ws, s3, |s.inflight| - 1);
      assert AnyPosition(RunFrom(cfg, ws, s, es).positions, m);
    }
  }

  /** After every run that leaves `m` closed with no row on it: some continuation has a position on `m`
      if and only if a broker buy for it is running, or an order for it by a known wallet is in flight. */
  lemma {:induction false} ReopensIffOwed(cfg: Config, ws: set<Wallet>, es: seq<Event>, m: Mint)
    requires var s := Run(cfg, ws, es); m in s.closed && !AnyPosition(s.positions, m)
    ensures (exists more :: AnyPosition(Run(cfg, ws, es + more).positions, m)) <==> Owed(ws, Run(cfg, ws, es), m)
  {
    hide Run, RunFrom, AnyPosition, CanBuy;
    var s := Run(cfg, ws, es);
    if Owed(ws, s, m) {
      var msg :| msg in s.inflight && CanBuy(ws, msg, m);
      var i :| 0 <= i < |s.inflight| && s.inflight[i] == msg;
      OwedArrives(cfg, ws, s, i, m);
      var more :| AnyPosition(RunFrom(cfg, ws, s, more).positions, m);
      RunContinues(cfg, ws, es, more);
      assert AnyPosition(Run(cfg, ws, es + more).positions, m);
    } else {
      forall more ensures !AnyPosition(Run(cfg, ws, es + more).positions, m) {
        QuietStaysEmpty(cfg, ws, s, m, more);
        RunContinues(cfg, ws, es, more);
      }
    }
  }

  // ---- a run that reopens a closed mint -----------------------------------------------------------

  /** One signal for two wallets: both buys run, the first answers, the operator abandons the mint, and
      the second answers. */
  function Reopening(m: Mint, a: Wallet, b: Wallet, lead: Lead): seq<Event> {
    [InitiateBuy(m, 1.0, [(a, 1.0), (b, 1.0)], lead, true), Deliver(0, NoCall), Deliver(0, NoCall),
     Deliver(1, PLAIN_FILL), Abandon(m, None), Deliver(1, PLAIN_FILL)]
  }

  lemma TwoOrders(m: Mint, a: Wallet, b: Wallet, lead: Lead)
    ensures FanOut(m, [(a, 1.0), (b, 1.0)], lead) == [ExecuteBuy(Key(m, a), 1.0, lead), ExecuteBuy(Key(m, b), 1.0, lead)]
  {
    var buyers: seq<(Wallet, real)> := [(a, 1.0), (b, 1.0)];
    assert buyers[..1] == [(a, 1.0)] && buyers[..1][..0] == [];
    assert FanOut(m, buyers[..1], lead) == [ExecuteBuy(Key(m, a), 1.0, lead)];
    assert FanOut(m, buyers, lead) == FanOut(m, buyers[..1], lead) + [ExecuteBuy(Key(m, b), 1.0, lead)];
  }

  /** Both buys are running and nothing has been opened. */
  lemma BothRunning(cfg: Config, ws: set<Wallet>, m: Mint, a: Wallet, b: Wallet, lead: Lead)
    requires a in ws && b in ws && a != b
    ensures var s := RunFrom(cfg, ws, INIT, Reopening(m, a, b, lead)[..3]);
            && s.positions == map[] && s.closed == {} && !s.paused
            && s.inflight == [ClearPending(m), Buying(Key(m, a), 1.0, 1.0, lead), Buying(Key(m, b), 1.0, 1.0, lead)]
  {
    var es := Reopening(m, a, b, lead);
    TwoOrders(m, a, b, lead);
    FromOne(cfg, ws, INIT, [], es[0]);
    FromOne(cfg, ws, INIT, [es[0]], es[1]);
    FromOne(cfg, ws, INIT, [es[0], es[1]], es[2]);
    assert [] + [es[0]] == [es[0]] && [es[0]] + [es[1]] == [es[0], es[1]];
    assert [es[0], es[1]] + [es[2]] == es[..3];
    hide FanOut, RunFrom;
    var x, y, c := ExecuteBuy(Key(m, a), 1.0, lead), ExecuteBuy(Key(m, b), 1.0, lead), ClearPending(m);
    var ba, bb := Buying(Key(m, a), 1.0, 1.0, lead), Buying(Key(m, b), 1.0, 1.0, lead);
    var s1, s2 := RunFrom(cfg, ws, INIT, [es[0]]), RunFrom(cfg, ws, INIT, [es[0], es[1]]);
    assert s1.inflight == [x, y, c];
    assert s2.inflight == [y, c, ba];
  }

  /** From start-up, with one signal and two distinct wallets: the mint is closed and has no pool, and yet
      it has a position. */
  lemma ClosedMintReopens(cfg: Config, ws: set<Wallet>, m: Mint, a: Wallet, b: Wallet, lead: Lead)
    requires a in ws && b in ws && a != b
    ensures var s := Run(cfg, ws, Reopening(m, a, b, lead));
            m in s.closed && m !in s.pools && Key(m, b) in s.positions
  {
    var es, ka, kb := Reopening(m, a, b, lead), Key(m, a), Key(m, b);
    RunContinues(cfg, ws, [], es);
    assert [] + es == es && Run(cfg, ws, []) == INIT;
    BothRunning(cfg, ws, m, a, b, lead);
    FromOne(cfg, ws, INIT, es[..3], es[3]);
    FromOne(cfg, ws, INIT, es[..4], es[4]);
    FromOne(cfg, ws, INIT, es[..5], es[5]);
    assert es[..3] + [es[3]] == es[..4] && es[..4] + [es[4]] == es[..5] && es[..5] + [es[5]] == es;
    var s3, s4, s5 := RunFrom(cfg, ws, INIT, es[..3]), RunFrom(cfg, ws, INIT, es[..4]), RunFrom(cfg, ws, INIT, es[..5]);
    hide RunFrom, Run;
    FirstAnswers(cfg, ws, s3, ka, kb, lead);
    AbandonCloses(cfg, ws, s4, m);
    hide Next;
    BuyingOpens(cfg, ws, s5, 1);
  }

  lemma FirstAnswers(cfg: Config, ws: set<Wallet>, s: Actor, ka: Key, kb: Key, lead: Lead)
    requires s.inflight == [ClearPending(ka.mint), Buying(ka, 1.0, 1.0, lead), Buying(kb, 1.0, 1.0, lead)]
    ensures Next(cfg, ws, s, Deliver(1, PLAIN_FILL)).inflight == [ClearPending(ka.mint), Buying(kb, 1.0, 1.0, lead)]
  {
    hide Open, OpeningFor, Spike;
  }

  lemma AbandonCloses(cfg: Config, ws: set<Wallet>, s: Actor, m: Mint)
    ensures var s' := Next(cfg, ws, s, Abandon(m, None));
            m in s'.closed && m !in s'.pools && !AnyPosition(s'.positions, m) && s'.inflight == s.inflight
  {
  }
}
