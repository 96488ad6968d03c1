/**
 The whole of `sell` in src/autobuy/pump_brocker.rs: the first leg, the route to Jupiter, and the drain
 after a clamped full exit; what it reports, what it leaves unsold, and what the manager then believes.
 */
module CurveSale {

  import opened Common
  import opened Curve
  import opened JupiterSell
  import opened CurveSell
  import opened PositionSpec
  import opened PositionProps
  import opened ManagerSpec
  import RowSpec

  /** How the first leg goes: the transaction, the balance read before it, the balances polled after it,
      whether the account was seen gone, the receipt, and the answers to the Jupiter sale should that
      route be taken. */
  datatype FirstAnswer = FirstAnswer(
    send: Send, pre: u64, seen: seq<Option<u64>>, gone: bool, receipt: real, tries: Tries)

  /** A sale that succeeds: what it reports, how much of the request it never submitted, and the balance it
      last saw on the account (zero once the account is gone). */
  datatype SaleResult = Done(actual: real, unsold: nat, held: nat) | Failed

  /** The first leg goes to Jupiter, as planned or because the curve turns out to have graduated. */
  predicate ByJupiter(plan: Plan, f: FirstAnswer) { plan.amount > 0 && (plan.jupiter || f.send.CurveComplete?) }

  /** The transaction of the first leg landed on the curve and is confirmed. */
  predicate FirstLands(plan: Plan, f: FirstAnswer) {
    !plan.jupiter && (plan.amount > 0 || plan.closes) && f.send.Sent?
    && if plan.closes then f.gone else Poll(f.pre, plan.amount, f.seen).Some?
  }

  function JupiterResult(plan: Plan, unsold: nat, f: FirstAnswer): SaleResult
    requires plan.amount > 0
  {
    var sale := Sale(f.pre, plan.amount, plan.closes, f.tries);
    if sale.Received? then Done(sale.total, unsold, Held(f.pre, plan.amount, plan.closes, f.tries)) else Failed
  }

  function SellPlan(request: u64, plan: Plan, f: FirstAnswer, ps: seq<Pass>, c: Closing): SaleResult
    requires plan.amount <= request
  {
    if ByJupiter(plan, f) then JupiterResult(plan, request - plan.amount, f)
    else if !FirstLands(plan, f) then Failed
    else if plan.drains then
      var rest := Finish(Passes(ps), c);
      if rest.None? then Failed else Done(f.receipt + rest.value, 0, OrZero(c.rem))
    else if plan.closes then Done(f.receipt, request - plan.amount, 0)
    else Done(f.receipt, request - plan.amount, Poll(f.pre, plan.amount, f.seen).value)
  }

  lemma PlanFits(request: u64, curve: Option<CurveState>, fullExit: bool, priced: bool)
    ensures var p := FirstLeg(request, curve, fullExit, priced);
            p.amount <= request && (p.closes ==> !p.drains) && (p.jupiter ==> p.amount > 0)
  {
    ClosesIffWhole(request, curve, fullExit, priced);
  }

  /** The first leg was seen to land: the transaction was sent, and the account was seen gone if its close was
      part of it, or a balance read showed the drop if it was not. */
  predicate SeenToLand(plan: Plan, f: FirstAnswer) {
    f.send.Sent? && if plan.closes then f.gone else plan.amount > 0 && exists i :: 0 <= i < |f.seen| && Dropped(f.pre, plan.amount, f.seen[i])
  }

  /** On the curve nothing succeeds unconfirmed: when the first leg was not seen to land the sale fails; when
      it was, the sale succeeds with its receipt, and with what the drain returns if the drain follows, which
      must then not fail. */
  lemma ConfirmedOrFailed(request: u64, plan: Plan, f: FirstAnswer, ps: seq<Pass>, c: Closing)
    requires plan.amount <= request && (plan.closes ==> !plan.drains) && (plan.jupiter ==> plan.amount > 0)
    requires plan.amount == 0 || !(plan.jupiter || f.send.CurveComplete?)
    ensures var r := SellPlan(request, plan, f, ps, c);
            && (!SeenToLand(plan, f) ==> r == Failed)
            && (SeenToLand(plan, f) && !plan.drains ==> r.Done? && r.actual == f.receipt && r.unsold == request - plan.amount)
            && (SeenToLand(plan, f) && plan.drains ==>
                  var rest := Finish(Passes(ps), c);
                  if rest.Some? then r.Done? && r.actual == f.receipt + rest.value && r.unsold == 0 else r == Failed)
  {
    hide Passes, Finish, Poll, Dropped;
    if plan.amount > 0 { PollIff(f.pre, plan.amount, f.seen); }
  }

  /** `sell`, from the curve read to the receipt. */
  method Sell(request: u64, curve: Option<CurveState>, fullExit: bool, priced: bool, f: FirstAnswer, ps: seq<Pass>, c: Closing)
    returns (r: SaleResult)
    requires |ps| == MAX_DRAIN_LEGS
    ensures FirstLeg(request, curve, fullExit, priced).amount <= request
    ensures r == SellPlan(request, FirstLeg(request, curve, fullExit, priced), f, ps, c)
    ensures var p := FirstLeg(request, curve, fullExit, priced);
            r.Done? && (p.amount == 0 || !(p.jupiter || f.send.CurveComplete?)) ==> SeenToLand(p, f)
  {
    hide Passes, Finish, Poll, Clamp, SolOut, Sale, Held, SeenToLand;
    PlanFits(request, curve, fullExit, priced);
    var plan := FirstLeg(request, curve, fullExit, priced);
    if plan.amount == 0 || !(plan.jupiter || f.send.CurveComplete?) {
      ConfirmedOrFailed(request, plan, f, ps, c);
    }
    if plan.jupiter {
      r := SellByJupiter(plan, request - plan.amount, f);
      return;
    }
    if plan.amount == 0 && !plan.closes {
      return Failed;
    }
    match f.send {
      case Sent =>
      case SendFailed =>
        return Failed;
      case CurveComplete =>
        if plan.amount == 0 {
          return Failed;
        }
        r := SellByJupiter(plan, request - plan.amount, f);
        return;
    }
    var held: u64 := 0;
    if plan.closes {
      if !f.gone {
        return Failed;
      }
    } else {
      var post := PollConfirmsSell(f.pre, plan.amount, f.seen);
      if post.None? {
        return Failed;
      }
      held := post.value;
    }
    if fullExit && plan.clamped {
      var legs, total, closes := DrainAfterClampedExit(ps, c);
      if total.None? {
        return Failed;
      }
      return Done(f.receipt + total.value, 0, OrZero(c.rem));
    }
    return Done(f.receipt, request - plan.amount, held);
  }

  method SellByJupiter(plan: Plan, unsold: nat, f: FirstAnswer) returns (r: SaleResult)
    requires plan.amount > 0
    ensures r == JupiterResult(plan, unsold, f)
  {
    hide Sale, Held;
    var sale := SellPostGraduation(f.pre, plan.amount, plan.closes, f.tries);
    r := if sale.Received? then Done(sale.total, unsold, Held(f.pre, plan.amount, plan.closes, f.tries)) else Failed;
  }

  // ---- money -----------------------------------------------------------------------------------

  /** The money of the whole sale on chain: curve legs, Jupiter chunks and refunds. */
  function SellTaken(plan: Plan, f: FirstAnswer, ps: seq<Pass>, c: Closing): real {
    if ByJupiter(plan, f) then SaleTaken(f.pre, plan.amount, plan.closes, f.tries)
    else if !FirstLands(plan, f) then 0.0
    else f.receipt + if plan.drains then DrainTaken(ps) + CloseTaken(Passes(ps), c) else 0.0
  }

  function SellReported(r: SaleResult): real { if r.Done? then r.actual else 0.0 }

  /** The drain after the first leg fails: one of its passes, or the final close. */
  ghost predicate DrainFails(ps: seq<Pass>, c: Closing) {
    (exists i :: FailsAt(ps, i)) || ((forall i :: !FailsAt(ps, i)) && CloseFails(c))
  }

  /** What a caller would have to see in the answers for confirmed money to be lost: a Jupiter sale that
      breaks in both rounds, the second after a confirmed chunk; or a first leg that is confirmed and then
      a drain that fails. */
  ghost predicate Loses(plan: Plan, f: FirstAnswer, ps: seq<Pass>, c: Closing) {
    if ByJupiter(plan, f) then SaleLoses(f.pre, plan.amount, plan.closes, f.tries)
    else FirstLands(plan, f) && plan.drains && DrainFails(ps, c)
  }

  /** The money lost then: the confirmed chunks of the second round, or the first receipt and everything the
      passes of the drain took. */
  function Lost(plan: Plan, f: FirstAnswer, ps: seq<Pass>): real {
    if ByJupiter(plan, f) then JupiterSell.Taken(f.pre, Chunks(plan.amount, 4), plan.closes, f.tries[1])
    else f.receipt + DrainTaken(ps)
  }

  /** A sale whose first leg was confirmed fails, and loses that receipt, if and only if the drain was to
      follow and one of its passes or the final close fails. */
  lemma {:induction false} FirstReceiptLostIff(request: u64, plan: Plan, f: FirstAnswer, ps: seq<Pass>, c: Closing)
    requires plan.amount <= request && (plan.closes ==> !plan.drains)
    ensures FirstLands(plan, f) && SellPlan(request, plan, f, ps, c).Failed? <==>
            FirstLands(plan, f) && plan.drains && DrainFails(ps, c)
  {
    hide Passes, FailsAt, Poll, Sale, Held;
    FailedMeaning(ps);
  }

  /** For all answers, over the whole of `sell`: what was confirmed on chain less what is reported is
      nothing, unless the answers are of the two losing kinds, and then it is exactly the named money. */
  lemma {:induction false} MoneyOfSale(request: u64, plan: Plan, f: FirstAnswer, ps: seq<Pass>, c: Closing)
    requires plan.amount <= request && (plan.closes ==> !plan.drains)
    ensures SellTaken(plan, f, ps, c) - SellReported(SellPlan(request, plan, f, ps, c)) ==
            if Loses(plan, f, ps, c) then Lost(plan, f, ps) else 0.0
    ensures Loses(plan, f, ps, c) ==> SellPlan(request, plan, f, ps, c).Failed?
  {
    hide Passes, FailsAt, Poll, Sale, Held, Finish, CloseFails, DrainTaken, SaleTaken, SaleLoses, JupiterSell.Taken, Chunks;
    if ByJupiter(plan, f) {
      ReceiptsLostIff(f.pre, plan.amount, plan.closes, f.tries);
    } else {
      FinishFails(ps, c);
      DrainMoney(ps, c);
    }
  }

  lemma FinishFails(ps: seq<Pass>, c: Closing)
    ensures Finish(Passes(ps), c).None? <==> DrainFails(ps, c)
  {
    hide Passes, FailsAt;
    FailedMeaning(ps);
  }

  /** When every receipt is positive, nothing is missing exactly when the answers are of neither losing
      kind. */
  lemma {:induction false} NothingMissingIff(request: u64, plan: Plan, f: FirstAnswer, ps: seq<Pass>, c: Closing)
    requires plan.amount <= request && (plan.closes ==> !plan.drains)
    requires f.receipt > 0.0 && Pays(f.tries[0]) && Pays(f.tries[1]) && forall i :: 0 <= i < |ps| ==> PassPays(ps[i])
    ensures SellTaken(plan, f, ps, c) >= SellReported(SellPlan(request, plan, f, ps, c))
    ensures SellTaken(plan, f, ps, c) == SellReported(SellPlan(request, plan, f, ps, c)) <==> !Loses(plan, f, ps, c)
  {
    hide SellTaken, SellPlan, FailsAt, Poll, CloseFails, DrainTaken, SaleTaken, SaleLoses, JupiterSell.Taken, Chunks, Pays, PassPays, DrainFails;
    MoneyOfSale(request, plan, f, ps, c);
    SalePays(f.pre, plan.amount, plan.closes, f.tries);
    DrainPays(ps);
  }

  // ---- tokens ----------------------------------------------------------------------------------

  /** A full exit that succeeds leaves tokens, unsubmitted or seen on the account, if and only if its first
      leg went to Jupiter and was clamped or left a balance, or the balance read after the drain is not
      zero. */
  lemma {:induction false} LeavesTokensIff(
      request: u64, curve: Option<CurveState>, priced: bool, f: FirstAnswer, ps: seq<Pass>, c: Closing)
    ensures var plan := FirstLeg(request, curve, true, priced);
            plan.amount <= request &&
            var r := SellPlan(request, plan, f, ps, c);
            r.Done? ==>
              (r.unsold > 0 || r.held > 0 <==>
                 if ByJupiter(plan, f) then plan.clamped || Held(f.pre, plan.amount, plan.closes, f.tries) > 0
                 else plan.drains && OrZero(c.rem) > 0)
  {
    hide Passes, Poll, SolOut, Clamp, Finish, Sale, Held;
    ClosesIffWhole(request, curve, true, priced);
  }

  /** How much an unclamped full exit by Jupiter can leave: the last confirmed balance and the request are
      at most the balance before and 100 raw units, so with the whole balance requested at most 100. */
  lemma {:induction false} JupiterLeavesAtMost(request: u64, plan: Plan, f: FirstAnswer, ps: seq<Pass>, c: Closing)
    requires plan.amount == request && ByJupiter(plan, f) && SellPlan(request, plan, f, ps, c).Done?
    ensures var posts := Sale(f.pre, request, plan.closes, f.tries).posts;
            posts != [] && posts[|posts| - 1] + request <= f.pre + 100
    ensures (plan.closes && LastAnswer(f.pre, request, plan.closes, f.tries).left.None?) || !plan.closes ==>
              SellPlan(request, plan, f, ps, c).held + request <= f.pre + 100
  {
    hide Sale, LastAnswer;
    SaleResidue(f.pre, request, plan.closes, f.tries);
  }

  // ---- what the manager believes ------------------------------------------------------------------

  function ToManager(r: SaleResult, manual: bool): Outcome {
    match r case Done(actual, _, _) => SellOk(actual) case Failed => SellErr(manual)
  }

  /** A sale that fails leaves holdings and returned SOL as they were, whatever was confirmed on chain; a full
      exit that succeeds ends the position, whatever was left unsold. */
  lemma BooksAfterSale(p: Pos, pct: real, r: SaleResult, manual: bool)
    ensures var after := RowSpec.Answer(p, pct, ToManager(r, manual));
            && (r.Failed? ==> after.Some? && after.value.holdings == p.holdings && after.value.returned == p.returned)
            && (r.Done? && pct >= 100.0 ==> after.None?)
  {
    hide Touch;
    if r.Failed? { TouchKeeps(p, SellFailed(pct, manual)); }
  }

  /** So a sale on the curve that was not seen to land leaves the position with the tokens and the money it
      had, open for another try. */
  lemma UnconfirmedKeepsPosition(p: Pos, pct: real, manual: bool, request: u64, plan: Plan, f: FirstAnswer, ps: seq<Pass>, c: Closing)
    requires plan.amount <= request && (plan.closes ==> !plan.drains) && (plan.jupiter ==> plan.amount > 0)
    requires (plan.amount == 0 || !(plan.jupiter || f.send.CurveComplete?)) && !SeenToLand(plan, f)
    ensures var after := RowSpec.Answer(p, pct, ToManager(SellPlan(request, plan, f, ps, c), manual));
            && after.Some? && after.value.holdings == p.holdings && after.value.returned == p.returned
            && !after.value.sells.pending && (pct >= 100.0 || manual ==> !after.value.sells.closing)
  {
    hide SellPlan, SeenToLand;
    ConfirmedOrFailed(request, plan, f, ps, c);
  }

  // ---- instances ------------------------------------------------------------------------------------

  const NO_TRIES: Tries := [[NEVER_SENT], [NEVER_SENT, NEVER_SENT, NEVER_SENT, NEVER_SENT]]

  /** A Jupiter sale that one chunk completes. */
  function OneChunk(post: u64, receipt: real, left: Option<u64>): Tries {
    [[Answer(true, [Some(post)], receipt, left, None)], [NEVER_SENT, NEVER_SENT, NEVER_SENT, NEVER_SENT]]
  }

  lemma OneChunkSells(pre: u64, sold: u64, close: bool, post: u64, receipt: real, left: Option<u64>)
    requires 0 < sold && Confirms(pre, sold, Some(post)) && left != Some(0)
    ensures Sale(pre, sold, close, OneChunk(post, receipt, left)) == Received(receipt, [post])
    ensures Held(pre, sold, close, OneChunk(post, receipt, left)) == if close && left.Some? then left.value else post
  {
    var answers := OneChunk(post, receipt, left)[0];
    assert Chunks(sold, 1) == [sold];
    assert Poll(pre, sold, answers[0].seen) == Some(post);
    assert SellChunks(SatSub(pre, sold), [sold][1..], close, answers[1..]) == Sold(0.0, []);
    hide Confirms, Poll;
  }

  const SMALL := CurveState(1000, 1000, 100, false)

  lemma SmallClamp(priced: bool)
    ensures FirstLeg(1000, Some(SMALL), true, priced) == Plan(98, true, false, priced, !priced)
  {
    assert SolOut(1000, SMALL) == 500 && SafetyCap(SMALL) == 90;
    assert MaxSellable(90, SMALL) == 98;
  }

  /** A full exit of 1000 units on a small curve priced for Jupiter sells 98 of them and succeeds: no drain,
      no close, and the manager ends the position. */
  lemma ClampedExitByJupiter(p: Pos, ps: seq<Pass>, c: Closing)
    ensures var plan := FirstLeg(1000, Some(SMALL), true, true);
            var f := FirstAnswer(Sent, 1000, [], false, 0.0, OneChunk(902, 0.08, None));
            && plan.clamped && plan.jupiter && !plan.closes && !plan.drains && plan.amount == 98
            && SellPlan(1000, plan, f, ps, c) == Done(0.08, 902, 902)
            && RowSpec.Answer(p, 100.0, ToManager(SellPlan(1000, plan, f, ps, c), false)) == None
  {
    SmallClamp(true);
    OneChunkSells(1000, 98, false, 902, 0.08, None);
    hide Passes, Sale, Held, OneChunk, FirstLeg;
  }

  const GRADUATED := CurveState(1000000000, 1000000000, 1000000000, true)

  lemma GraduatedPlan()
    ensures FirstLeg(1000000, Some(GRADUATED), true, false) == Plan(1000000, false, true, true, false)
  {
    assert SafetyCap(GRADUATED) == 900000000;
    assert SolOut(1000000, GRADUATED) <= 900000000;
  }

  /** An unclamped full exit of a graduated token: the sale is confirmed with 100 units left, the close is
      skipped because of them, the sale succeeds, and the manager ends the position. */
  lemma WholeExitLeavesResidue(p: Pos, ps: seq<Pass>, c: Closing)
    ensures var plan := FirstLeg(1000000, Some(GRADUATED), true, false);
            var f := FirstAnswer(Sent, 1000000, [], false, 0.0, OneChunk(100, 1.0, Some(100)));
            && !plan.clamped && plan.jupiter && plan.closes && plan.amount == 1000000
            && SellPlan(1000000, plan, f, ps, c) == Done(1.0, 0, 100)
            && RowSpec.Answer(p, 100.0, ToManager(SellPlan(1000000, plan, f, ps, c), false)) == None
  {
    GraduatedPlan();
    assert Confirms(1000000, 1000000, Some(100));
    OneChunkSells(1000000, 1000000, true, 100, 1.0, Some(100));
    hide Passes, Sale, Held, OneChunk, FirstLeg;
  }

  /** On the curve the first 98 are confirmed for 0.08 SOL, the first transaction of the drain fails, and so
      does the sale: the receipt is in no result and the manager keeps the old holdings. */
  lemma ClampedExitLosesFirstReceipt(p: Pos)
    ensures var plan := FirstLeg(1000, Some(SMALL), true, false);
            var f := FirstAnswer(Sent, 1000, [Some(902)], false, 0.08, NO_TRIES);
            var pass := Pass(Some(902), Some(CurveState(1098, 910, 10, false)), SendFailed, [], 0.0, None, NO_TRIES);
            var r := SellPlan(1000, plan, f, [pass], Closing(Some(902), None));
            && FirstLands(plan, f) && r == Failed
            && RowSpec.Answer(p, 100.0, ToManager(r, false)).Some?
            && RowSpec.Answer(p, 100.0, ToManager(r, false)).value.holdings == p.holdings
  {
    SmallClamp(false);
    assert Confirms(1000, 98, Some(902));
    var c := CurveState(1098, 910, 10, false);
    assert SafetyCap(c) == 9 && SolOut(902, c) > 9;
    assert MaxSellable(9, c) == 10;
    hide Touch, Sale, Held;
    BooksAfterSale(p, 100.0, Failed, false);
  }

  /** A drain whose first pass finds the curve graduated, sells one quarter through Jupiter for one SOL and
      then breaks: it returns nothing, and the SOL is lost. */
  lemma DrainLosesQuarter()
    ensures var tries: Tries := [[NEVER_SENT], [Answer(true, [Some(150000)], 1.0, None, None), NEVER_SENT, NEVER_SENT, NEVER_SENT]];
            var pass := Pass(Some(200000), Some(GRADUATED), Sent, [], 0.0, None, tries);
            && LosesByJupiter(pass) && PassTaken(pass) == 1.0
            && Finish(Passes([pass]), Closing(Some(150000), None)) == None
  {
    OneQuarterLost();
    var tries: Tries := [[NEVER_SENT], [Answer(true, [Some(150000)], 1.0, None, None), NEVER_SENT, NEVER_SENT, NEVER_SENT]];
    hide Sale, SaleLoses, SaleTaken, SaleConfirmed, Clamp, Poll;
    ReceiptsLostIff(200000, 200000, true, tries);
  }
}
