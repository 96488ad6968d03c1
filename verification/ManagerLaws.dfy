/**
 What single handlers of the actor do, in numbers and without the rules they are written with: the price a
 position opens at, the fill that is aborted, the tokens a partial sell leaves, and when an order is
 accepted.
 */
module ManagerLaws {

  import opened Common
  import opened ExitFilter
  import opened ExitEngine
  import opened Amounts
  import opened PositionSpec
  import opened PositionProps
  import opened PartialProps
  import opened RowRuns
  import opened ManagerSpec
  import opened ManagerProps
  import opened ManagerSafety

  // ---- the price a position opens at -------------------------------------------------------------

  /** The row a completed buy leaves, whatever its baseline: entry price and session high are the baseline,
      or the pool's mcap without one, in raw units; the tape starts with the baseline, the clock and the
      velocity samples are unset, and nothing is triggered or in flight. */
  lemma OpenedRow(cfg: Config, o: Opening)
    ensures var p := Open(cfg, o);
            var base := if o.mcapFill.Some? && o.mcapFill.value > 0.0 then o.mcapFill.value else o.pool;
            && p.entry.mcapRaw == FromFloatNative(base) && p.tape.highest == ToFloat(FromFloatNative(base)) && p.tape.peak == 0.0
            && p.tape.prevRaw == (if o.mcapFill.Some? && o.mcapFill.value > 0.0 then o.mcapFill else None)
            && p.tape.pool == o.pool && !p.tape.useJupiter && p.tape.tkLastSecs == 0
            && p.entry.time == o.now && p.entry.spent == o.spent && p.entry.snap == o.snap && p.returned == 0.0
            && p.holdings == p.entry.initial == FromFloatNative(o.tokens)
            && p.guard == Guard(cfg.profitFloor, false, 0, 0, false, 0.0, 0)
            && p.sells == Sells(false, false, false, false, false, false, false, false)
            && p.entry.tkBuyers == o.tkBuyers && p.entry.tkSmart == o.tkSmart && p.entry.tkB2s == o.tkB2s
            && p.live.profile == o.profile && p.live.hold == o.hold && p.live.phase.Exploration? && !p.live.hasTape
            && (cfg.v4.enabled ==> p.live.score == p.live.scoreFloor == o.scoreFloor && p.live.lastAt == o.now)
  {
    hide FromFloatNative, ToFloat, PushTick;
  }

  /** The configured share of the fill that a baseline never goes under: kept between 0 and 1. */
  function LeastShare(cfg: Config): real {
    if cfg.honestMin < 0.0 then 0.0 else if cfg.honestMin > 1.0 then 1.0 else cfg.honestMin
  }

  /** The score as far as it lies between `low` and the fill, and the nearer of those two otherwise. */
  predicate Honest(b: real, fill: real, score: real, low: real) {
    && low <= b <= fill
    && (low <= score <= fill ==> b == score) && (score > fill ==> b == fill) && (score < low ==> b == low)
  }

  lemma BaselineMeans(cfg: Config, snap: Option<Snapshot>, mcap: Option<real>)
    ensures var b, filled := Baseline(cfg, snap, mcap), mcap.Some? && mcap.value > 0.0;
            var scored := cfg.honest && snap.Some? && snap.value.mcap > 0.0;
            && (!filled ==> b.None?) && (filled && !scored ==> b == mcap)
            && (filled && scored ==>
                  b.Some? && b.value > 0.0 && Honest(b.value, mcap.value, snap.value.mcap, LeastShare(cfg) * mcap.value))
  {
    if mcap.Some? && mcap.value > 0.0 && snap.Some? {
      HonestMeans(mcap.value, snap.value.mcap, LeastShare(cfg), LeastShare(cfg) * mcap.value);
    }
    hide Honest;
  }

  lemma HonestMeans(fill: real, score: real, share: real, low: real)
    requires fill > 0.0 && 0.0 <= share <= 1.0 && low == share * fill
    ensures Honest(MaxR(MinR(fill, score), low), fill, score, low)
  {
    Shrinks(fill, share, low);
  }

  /** Entry price and session high. */
  predicate EntersAt(p: Pos, base: real) {
    p.entry.mcapRaw == FromFloatNative(base) && p.tape.highest == ToFloat(FromFloatNative(base))
  }

  /** A fill that is not aborted, and so reports nothing, opens the row; nothing else changes. Its price: without a fill mcap the
      pool's; with the honest baseline off, or no score, the fill; otherwise the score as far as it lies
      between the configured share of the fill and the fill, and the nearer of those two if it does not. */
  lemma EntryPrice(cfg: Config, ws: set<Wallet>, s: Actor, k: Key, amount: real, pool: real, lead: Lead, f: Fill)
    requires OnBuyCompleted(cfg, ws, s, k, amount, pool, lead, BuyOk(f)).notes == s.notes
    ensures var s' := OnBuyCompleted(cfg, ws, s, k, amount, pool, lead, BuyOk(f));
            k in s'.positions && s' == s.(positions := s.positions[k := s'.positions[k]])
    ensures var p := OnBuyCompleted(cfg, ws, s, k, amount, pool, lead, BuyOk(f)).positions[k];
            var base, filled := p.tape.prevRaw, f.mcap.Some? && f.mcap.value > 0.0;
            var scored := cfg.honest && lead.snap.Some? && lead.snap.value.mcap > 0.0;
            && p.entry.spent == amount && p.entry.time == f.now && p.entry.snap == lead.snap
            && p.holdings == p.entry.initial == FromFloatNative(f.tokens)
            && (lead.snap.None? ==> p.entry.tkBuyers == lead.earlyBuyers && p.entry.tkSmart == 0 && p.entry.tkB2s == 0.0)
            && (lead.snap.Some? ==> p.entry.tkBuyers == lead.snap.value.buyers && p.entry.tkSmart == lead.snap.value.smart
                                    && p.entry.tkB2s == lead.snap.value.b2s)
            && (if cfg.v4.enabled then p.live.profile == f.profile && p.live.hold == f.hold else p.live.profile.Neutral? && !p.live.hold)
            && (!filled ==> base.None? && EntersAt(p, pool))
            && (filled ==> base.Some? && EntersAt(p, base.value))
            && (filled && !scored ==> base == f.mcap)
            && (filled && scored ==> Honest(base.value, f.mcap.value, lead.snap.value.mcap, LeastShare(cfg) * f.mcap.value))
  {
    hide Baseline, Aborts, Open, FromFloatNative, ToFloat, ScoreFloor, Honest;
    var o := OpeningFor(cfg, amount, pool, lead, f);
    OpenedRow(cfg, o);
    BaselineMeans(cfg, lead.snap, f.mcap);
  }

  // ---- the fill that is aborted --------------------------------------------------------------------

  /** A fill is aborted, with one reported value and no row, exactly when the check is on, both prices are
      known, the fill is more than the upper multiple of the score (at least one) or less than the lower one
      (between a tenth and one), and the emergency sell of a known wallet goes through. */
  lemma AbortIff(cfg: Config, ws: set<Wallet>, s: Actor, k: Key, amount: real, pool: real, lead: Lead, f: Fill)
    ensures var s' := OnBuyCompleted(cfg, ws, s, k, amount, pool, lead, BuyOk(f));
            var up := if cfg.abortMax < 1.0 then 1.0 else cfg.abortMax;
            var down := if cfg.abortMin < 0.1 then 0.1 else if cfg.abortMin > 1.0 then 1.0 else cfg.abortMin;
            var known := lead.snap.Some? && lead.snap.value.mcap > 0.0 && f.mcap.Some? && f.mcap.value > 0.0;
            var aborts := cfg.abortEnabled && known && k.wallet in ws && f.abortSell.Some?
                          && (f.mcap.value > up * lead.snap.value.mcap || f.mcap.value < down * lead.snap.value.mcap);
            && (aborts ==> s' == s.(notes := s.notes + [f.abortSell.value - amount]))
            && (!aborts ==> s'.notes == s.notes && k in s'.positions && s'.positions[k].entry.time == f.now)
  {
    hide Baseline, Spike, FromFloatNative, ToFloat, ScoreFloor, PushTick;
    SpikeMeans(cfg, lead.snap, f.mcap);
  }

  lemma SpikeMeans(cfg: Config, snap: Option<Snapshot>, mcap: Option<real>)
    ensures var up := if cfg.abortMax < 1.0 then 1.0 else cfg.abortMax;
            var down := if cfg.abortMin < 0.1 then 0.1 else if cfg.abortMin > 1.0 then 1.0 else cfg.abortMin;
            Spike(cfg, snap, mcap) <==>
              && cfg.abortEnabled && snap.Some? && snap.value.mcap > 0.0 && mcap.Some? && mcap.value > 0.0
              && (mcap.value > up * snap.value.mcap || mcap.value < down * snap.value.mcap)
  {
    if snap.Some? && snap.value.mcap > 0.0 && mcap.Some? {
      var up := if cfg.abortMax < 1.0 then 1.0 else cfg.abortMax;
      var down := if cfg.abortMin < 0.1 then 0.1 else if cfg.abortMin > 1.0 then 1.0 else cfg.abortMin;
      RatioOrder(mcap.value, snap.value.mcap, up);
      RatioOrder(mcap.value, snap.value.mcap, down);
    }
  }

  lemma RatioOrder(a: real, b: real, r: real)
    requires b > 0.0
    ensures (a / b > r <==> a > r * b) && (a / b < r <==> a < r * b)
  {
    SameOrder(r, a / b, b, r * b, a);
    RatioAtLeast(a, b, r, r * b);
  }

  // ---- the tokens a partial sell leaves ---------------------------------------------------------------

  /** A confirmed sell of `pct` percent under 100, on an open row of a known wallet: the row holds the other
      part, to half a raw unit, has the receipt added and waits for no partial; nothing else in the actor
      changes. */
  lemma PartialSellLeaves(ws: set<Wallet>, s: Actor, k: Key, pct: real, received: real)
    requires 0.0 <= pct < 100.0 && k.wallet in ws && k in s.positions && s.positions[k].holdings <= U64_MAX
    ensures var s' := OnExecuteSell(ws, s, k, pct, SellOk(received));
            k in s'.positions && s' == s.(positions := s.positions[k := s'.positions[k]])
    ensures var p, p' := s.positions[k], OnExecuteSell(ws, s, k, pct, SellOk(received)).positions[k];
            && Abs(p'.holdings as real - p.holdings as real * (100.0 - pct) / 100.0) <= 0.5
            && p' == p.(holdings := p'.holdings, returned := p.returned + received, sells := p.sells.(pending := false))
  {
    hide AfterPartial;
    PartialTouch(s.positions[k], pct, received, s.positions[k].holdings as real * (100.0 - pct) / 100.0);
  }

  /** In every reachable state a row holds what exact arithmetic leaves of its initial tokens, within half a
      raw unit per partial sell of its life. */
  lemma {:induction false} HeldIsLeft(cfg: Config, ws: set<Wallet>, es: seq<Event>, k: Key)
    requires SellPctsValid(cfg) && k in Run(cfg, ws, es).positions
    ensures var p, l := Run(cfg, ws, es).positions[k], LifeOf(cfg, RowEvents(cfg, ws, es, k));
            && l.Some? && p.entry.initial == FromFloatNative(l.value.opening.tokens)
            && Abs(p.holdings as real - Left(p.entry.initial as real, l.value.trace)) <= Fills(l.value.trace) as real / 2.0
  {
    hide Run, RowEvents, LifeOf, PosRun, Open, Sold, Fills, Left, SellPctsValid, PctsInRange, FromFloatNative, Abs, Legs;
    PositionsAreLives(cfg, ws, es, k);
    RunSimulates(cfg, ws, es, k);
    var rs := RowEvents(cfg, ws, es, k);
    var l := LifeOf(cfg, rs).value;
    PctsStayValid(cfg, rs);
    HoldingsAreShares(cfg, l.opening, l.trace);
    HoldingsConserved(cfg, l.opening, l.trace);
    OpenedRow(cfg, l.opening);
  }

  // ---- when an order is accepted -------------------------------------------------------------------------

  /** A delivered order puts one broker buy in flight, with the cached pool, exactly when the actor runs, the
      wallet is known, the row is empty and the pool is cached; otherwise nothing changes. */
  lemma BuyStartsIff(ws: set<Wallet>, s: Actor, k: Key, amount: real, lead: Lead)
    ensures var s', starts := OnExecuteBuy(ws, s, k, amount, lead), !(s.paused || k.wallet !in ws || k in s.positions || k.mint !in s.pools);
            && (starts ==> s' == s.(inflight := s.inflight + [Buying(k, amount, s.pools[k.mint], lead)]))
            && (!starts ==> s' == s)
  {
  }

  /** A signal for a mint is taken exactly when the actor runs, the gate allows it, no row of the mint is open
      and the mint is neither pending nor closed; it then caches the pool, and, if there are buyers, marks the
      mint and sends one order per buyer and one end of the mark. */
  lemma SignalTakenIff(s: Actor, m: Mint, pool: real, buyers: seq<(Wallet, real)>, lead: Lead, allowed: bool)
    ensures var s' := OnInitiateBuy(s, m, pool, buyers, lead, allowed);
            var taken := !s.paused && allowed && m !in s.pending && m !in s.closed && (forall k :: k in s.positions ==> k.mint != m);
            && (!taken ==> s' == s)
            && (taken ==> s'.pools == s.pools[m := pool] && s'.positions == s.positions && s'.closed == s.closed && s'.notes == s.notes)
            && (taken && buyers == [] ==> s'.pending == s.pending && s'.inflight == s.inflight)
            && (taken && buyers != [] ==>
                  && s'.pending == s.pending + {m} && |s'.inflight| == |s.inflight| + |buyers| + 1
                  && s'.inflight[..|s.inflight|] == s.inflight && s'.inflight[|s.inflight| + |buyers|] == ClearPending(m)
                  && forall i :: 0 <= i < |buyers| ==>
                       s'.inflight[|s.inflight| + i] == ExecuteBuy(Key(m, buyers[i].0), buyers[i].1, lead))
  {
    FanOutLists(m, buyers, lead);
    hide FanOut;
  }

  lemma {:induction false} FanOutLists(m: Mint, buyers: seq<(Wallet, real)>, lead: Lead)
    ensures |FanOut(m, buyers, lead)| == |buyers|
    ensures forall i :: 0 <= i < |buyers| ==> FanOut(m, buyers, lead)[i] == ExecuteBuy(Key(m, buyers[i].0), buyers[i].1, lead)
  {
    if buyers != [] { FanOutLists(m, buyers[..|buyers| - 1], lead); }
  }

  /** Abandoning removes exactly the rows of the mint, or of the one named wallet on it, and closes the mint
      and drops its pool exactly when no row of it is left. */
  lemma AbandonedRows(s: Actor, m: Mint, wallet: Option<Wallet>)
    ensures var s' := OnAbandon(s, m, wallet);
            && (forall k :: k in s'.positions <==> k in s.positions && !(k.mint == m && (wallet == None || wallet == Some(k.wallet))))
            && (forall k :: k in s'.positions ==> s'.positions[k] == s.positions[k])
            && var gone := forall k :: k in s'.positions ==> k.mint != m;
            && s'.closed == (if gone then s.closed + {m} else s.closed) && s'.pools == (if gone then s.pools - {m} else s.pools)
            && s' == s.(positions := s'.positions, closed := s'.closed, pools := s'.pools)
  {
  }

  /** A full sell that succeeds removes the row and reports its money, receipts before and last less the
      spend (nothing when the spend is unknown); one that fails keeps the row, its tokens and its money. */
  lemma FullSellEnds(ws: set<Wallet>, s: Actor, k: Key, pct: real, out: Outcome)
    requires pct >= 100.0 && k.wallet in ws && k in s.positions && (out.SellOk? || out.SellErr?)
    ensures var s', p := OnExecuteSell(ws, s, k, pct, out), s.positions[k];
            && (out.SellOk? ==>
                  && s'.positions == s.positions - {k}
                  && s'.notes == s.notes + [if p.entry.spent > 0.0 then p.returned + out.received - p.entry.spent else 0.0]
                  && (k.mint in s'.closed <==> k.mint in s.closed || forall j :: j in s'.positions ==> j.mint != k.mint))
            && (out.SellErr? ==>
                  s' == s.(positions := s.positions[k := p.(sells := p.sells.(closing := false, pending := false))]))
  {
  }
}
