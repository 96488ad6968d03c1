/**
 The position-manager actor of src/autobuy/manager.rs as a transition system. The actor handles one
 message at a time; `inflight` holds the messages that spawned tasks will still send back, and any
 of them may be delivered next, with any outcome of the broker call it stands for.
 */
module ManagerSpec {

  import opened Common
  import opened ExitEngine
  import opened PositionSpec

  type Mint = string
  type Wallet = string

  datatype Key = Key(mint: Mint, wallet: Wallet)

  /** What a buy signal carries to the position it opens. */
  datatype Lead = Lead(snap: Option<Snapshot>, earlyBuyers: nat)

  /** `Buying` is the spawned `broker.buy` whose answer arrives as `BuyCompleted`. */
  datatype Msg =
    | ExecuteBuy(key: Key, amount: real, lead: Lead)
    | Buying(key: Key, amount: real, pool: real, lead: Lead)
    | ExecuteSell(key: Key, order: Order)
    | ClearPending(mint: Mint)

  datatype Actor = Actor(
    positions: map<Key, Pos>, pending: set<Mint>, closed: set<Mint>, pools: map<Mint, real>,
    paused: bool, inflight: seq<Msg>, notes: seq<real>)

  const INIT := Actor(map[], {}, {}, map[], false, [], [])

  /** The broker's answer to the call behind a delivered message. */
  datatype Outcome =
    | NoCall
    | SellOk(received: real)
    | SellErr(manual: bool)
    | BuyOk(fill: Fill)
    | BuyErr(unavailable: bool)

  /** A buy receipt, the clock, the resolved entry profile, and the answer of the emergency sell should
      the fill trip the spike check (`None`: that sell failed). */
  datatype Fill = Fill(tokens: real, mcap: Option<real>, now: nat, profile: Profile, hold: bool, abortSell: Option<real>)

  datatype Event =
    | InitiateBuy(mint: Mint, pool: real, buyers: seq<(Wallet, real)>, lead: Lead, allowed: bool)
    | SetPaused(paused: bool)
    | UpdatePool(mint: Mint, mcap: real)
    | JupiterRefresh(mint: Mint, mcap: real)
    | LiveUpdate(key: Key, live: PosEvent)
    | Ticked(now: nat, order: seq<Key>)
    | Abandon(mint: Mint, wallet: Option<Wallet>)
    | Deliver(i: nat, out: Outcome)

  predicate AnyPosition(ps: map<Key, Pos>, m: Mint) { exists k :: k in ps && k.mint == m }

  function Without<T>(s: seq<T>, i: nat): seq<T>
    requires i < |s|
  {
    s[..i] + s[i + 1..]
  }

  // ---- buying ---------------------------------------------------------------------------

  predicate Accepts(s: Actor, m: Mint, allowed: bool) {
    !s.paused && !AnyPosition(s.positions, m) && m !in s.pending && m !in s.closed && allowed
  }

  function FanOut(m: Mint, buyers: seq<(Wallet, real)>, lead: Lead): seq<Msg> {
    if buyers == [] then []
    else FanOut(m, buyers[..|buyers| - 1], lead)
         + [ExecuteBuy(Key(m, buyers[|buyers| - 1].0), buyers[|buyers| - 1].1, lead)]
  }

  function OnInitiateBuy(s: Actor, m: Mint, pool: real, buyers: seq<(Wallet, real)>, lead: Lead, allowed: bool): Actor {
    if !Accepts(s, m, allowed) then s
    else if buyers == [] then s.(pools := s.pools[m := pool])
    else s.(pools := s.pools[m := pool], pending := s.pending + {m},
            inflight := s.inflight + FanOut(m, buyers, lead) + [ClearPending(m)])
  }

  /** The order goes to the broker: running, known wallet, no row yet, pool known. */
  predicate StartsBuy(ws: set<Wallet>, s: Actor, k: Key) {
    !s.paused && k.wallet in ws && k !in s.positions && k.mint in s.pools
  }

  function OnExecuteBuy(ws: set<Wallet>, s: Actor, k: Key, amount: real, lead: Lead): Actor {
    if StartsBuy(ws, s, k) then s.(inflight := s.inflight + [Buying(k, amount, s.pools[k.mint], lead)]) else s
  }

  /** `detect_fill_mcap_spike`. */
  predicate Spike(cfg: Config, snap: Option<Snapshot>, mcap: Option<real>) {
    cfg.abortEnabled && snap.Some? && snap.value.mcap > 0.0 && mcap.Some? && mcap.value > 0.0
    && (mcap.value / snap.value.mcap > MaxR(cfg.abortMax, 1.0)
        || mcap.value / snap.value.mcap < MinR(MaxR(cfg.abortMin, 0.1), 1.0))
  }

  /** The honest entry baseline: the lower of fill and score mcap, but not under a share of the fill. */
  function Baseline(cfg: Config, snap: Option<Snapshot>, mcap: Option<real>): Option<real> {
    if mcap.None? || mcap.value <= 0.0 then None
    else if cfg.honest && snap.Some? && snap.value.mcap > 0.0 then
      Some(MaxR(MinR(mcap.value, snap.value.mcap), mcap.value * MinR(MaxR(cfg.honestMin, 0.0), 1.0)))
    else mcap
  }

  function OpeningFor(cfg: Config, amount: real, pool: real, lead: Lead, f: Fill): Opening {
    var snap := lead.snap;
    Opening(f.tokens, Baseline(cfg, snap, f.mcap), pool, f.now, amount, snap,
            if snap.Some? then snap.value.buyers else lead.earlyBuyers,
            if snap.Some? then snap.value.smart else 0,
            if snap.Some? then snap.value.b2s else 0.0,
            if cfg.v4.enabled then f.profile else Neutral, cfg.v4.enabled && f.hold, ScoreFloor(snap))
  }

  predicate Aborts(cfg: Config, ws: set<Wallet>, k: Key, lead: Lead, f: Fill) {
    Spike(cfg, lead.snap, f.mcap) && k.wallet in ws && f.abortSell.Some?
  }

  /** `apply_buy_result`. */
  function OnBuyCompleted(cfg: Config, ws: set<Wallet>, s: Actor, k: Key, amount: real, pool: real, lead: Lead, out: Outcome): Actor
    requires out.BuyOk? || out.BuyErr?
  {
    match out
    case BuyErr(unavailable) =>
      if unavailable && !AnyPosition(s.positions, k.mint) then s.(closed := s.closed + {k.mint}) else s
    case BuyOk(f) =>
      if Aborts(cfg, ws, k, lead, f) then s.(notes := s.notes + [f.abortSell.value - amount])
      else s.(positions := s.positions[k := Open(cfg, OpeningFor(cfg, amount, pool, lead, f))])
  }

  // ---- selling ---------------------------------------------------------------------------

  /** `maybe_finalize_closed_mint`. */
  function Finalize(s: Actor, m: Mint): Actor {
    if AnyPosition(s.positions, m) then s else s.(closed := s.closed + {m}, pools := s.pools - {m})
  }

  function ClosePnl(p: Pos, received: real): real {
    if p.entry.spent > 0.0 then p.returned + received - p.entry.spent else 0.0
  }

  /** `ExecuteSell`: a full sell that succeeds closes the row; everything else puts it back. */
  function OnExecuteSell(ws: set<Wallet>, s: Actor, k: Key, pct: real, out: Outcome): Actor
    requires out.SellOk? || out.SellErr?
  {
    if k.wallet !in ws || k !in s.positions then s
    else
      var p := s.positions[k];
      match out
      case SellErr(manual) => s.(positions := s.positions[k := Touch(p, SellFailed(pct, manual))])
      case SellOk(received) =>
        if pct < 100.0 then s.(positions := s.positions[k := Touch(p, PartialSold(pct, received))])
        else Finalize(s.(positions := s.positions - {k}), k.mint).(notes := s.notes + [ClosePnl(p, received)])
  }

  predicate Drops(k: Key, m: Mint, wallet: Option<Wallet>) {
    k.mint == m && (wallet.None? || wallet.value == k.wallet)
  }

  function OnAbandon(s: Actor, m: Mint, wallet: Option<Wallet>): Actor {
    Finalize(s.(positions := map k | k in s.positions && !Drops(k, m, wallet) :: s.positions[k]), m)
  }

  // ---- market data and ticks ----------------------------------------------------------------

  function TouchMint(ps: map<Key, Pos>, m: Mint, e: PosEvent): map<Key, Pos>
    requires !e.Tick?
  {
    map k | k in ps :: if k.mint == m then Touch(ps[k], e) else ps[k]
  }

  function OnLive(s: Actor, k: Key, e: PosEvent): Actor {
    if e.LiveSnapshot? && k in s.positions then s.(positions := s.positions[k := Touch(s.positions[k], e)]) else s
  }

  /** The orders of one tick, in the order the rows are visited. */
  function TickOrders(cfg: Config, now: nat, ps: map<Key, Pos>, ks: seq<Key>): seq<Msg>
    requires forall k :: k in ks ==> k in ps
  {
    if ks == [] then []
    else
      var k := ks[|ks| - 1];
      var o := TickStep(cfg, now, ps[k]).1;
      TickOrders(cfg, now, ps, ks[..|ks| - 1]) + if o.Some? then [ExecuteSell(k, o.value)] else []
  }

  predicate Enumerates(ks: seq<Key>, ps: map<Key, Pos>) {
    && (forall k :: k in ks ==> k in ps) && (forall k :: k in ps ==> k in ks)
    && Distinct(ks)
  }

  function OnTick(cfg: Config, s: Actor, now: nat, ks: seq<Key>): Actor
    requires Enumerates(ks, s.positions)
  {
    s.(positions := map k | k in s.positions :: TickStep(cfg, now, s.positions[k]).0,
       inflight := s.inflight + TickOrders(cfg, now, s.positions, ks))
  }

  // ---- the transition system ------------------------------------------------------------------

  /** The outcome answers the call the message stands for. */
  predicate Fits(m: Msg, out: Outcome) {
    match m
    case ExecuteBuy(_, _, _) => out.NoCall?
    case ClearPending(_) => out.NoCall?
    case Buying(_, _, _, _) => out.BuyOk? || out.BuyErr?
    case ExecuteSell(_, _) => out.SellOk? || out.SellErr?
  }

  predicate Enabled(s: Actor, e: Event) {
    match e
    case Deliver(i, out) => i < |s.inflight| && Fits(s.inflight[i], out)
    case Ticked(_, ks) => Enumerates(ks, s.positions)
    case _ => true
  }

  function OnDeliver(cfg: Config, ws: set<Wallet>, s: Actor, m: Msg, out: Outcome): Actor
    requires Fits(m, out)
  {
    match m
    case ExecuteBuy(k, amount, lead) => OnExecuteBuy(ws, s, k, amount, lead)
    case Buying(k, amount, pool, lead) => OnBuyCompleted(cfg, ws, s, k, amount, pool, lead, out)
    case ExecuteSell(k, order) => OnExecuteSell(ws, s, k, order.pct, out)
    case ClearPending(m) => s.(pending := s.pending - {m})
  }

  /** One step; an event that is not enabled changes nothing. */
  function Next(cfg: Config, ws: set<Wallet>, s: Actor, e: Event): Actor {
    if !Enabled(s, e) then s
    else
      match e
      case InitiateBuy(m, pool, buyers, lead, allowed) => OnInitiateBuy(s, m, pool, buyers, lead, allowed)
      case SetPaused(b) => s.(paused := b)
      case UpdatePool(m, mcap) => s.(pools := s.pools[m := mcap], positions := TouchMint(s.positions, m, PoolUpdate(mcap)))
      case JupiterRefresh(m, mcap) => s.(positions := TouchMint(s.positions, m, JupiterMcap(mcap)))
      case LiveUpdate(k, live) => OnLive(s, k, live)
      case Ticked(now, ks) => OnTick(cfg, s, now, ks)
      case Abandon(m, wallet) => OnAbandon(s, m, wallet)
      case Deliver(i, out) => OnDeliver(cfg, ws, s.(inflight := Without(s.inflight, i)), s.inflight[i], out)
  }

  /** The state after a run from start-up; `ws` is the wallet registry, fixed for the process. */
  function Run(cfg: Config, ws: set<Wallet>, es: seq<Event>): Actor {
    if es == [] then INIT else Next(cfg, ws, Run(cfg, ws, es[..|es| - 1]), es[|es| - 1])
  }
}
