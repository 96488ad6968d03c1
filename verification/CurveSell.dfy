/**
 Selling on the bonding curve (src/autobuy/pump_brocker.rs): the sizing of the first leg of `sell`, and
 the drain loop that follows a clamped full exit. Curve reads, balance reads and transaction outcomes
 are inputs; the state of the run and what it submits are computed.
 */
module CurveSell {

  import opened Common
  import opened Curve
  import opened JupiterSell

  // ---- the first leg ------------------------------------------------------------------------

  /** What `sell` is about to do: the amount of its first leg, whether that was clamped, whether the account
      is closed in the same transaction, whether the leg goes to Jupiter instead of the curve, and whether
      the drain loop follows once the leg is confirmed. A leg sent to Jupiter returns before the drain. */
  datatype Plan = Plan(amount: u64, clamped: bool, closes: bool, jupiter: bool, drains: bool)

  /** `priced` says the curve's market cap has reached the Jupiter threshold. */
  function FirstLeg(request: u64, curve: Option<CurveState>, fullExit: bool, priced: bool): Plan {
    var clamped := curve.Some? && SolOut(request, curve.value) > SafetyCap(curve.value);
    var amount := if curve.Some? then Clamp(request, curve.value) else request;
    var jupiter := amount > 0 && curve.Some? && (curve.value.complete || priced);
    Plan(amount, clamped, fullExit && !clamped, jupiter, fullExit && clamped && !jupiter)
  }

  /** A clamp always sells strictly less. The account is closed with the sale exactly when a full exit sells
      the whole request; the drain is to follow exactly when a full exit sells less and stays on the curve;
      so a full exit that is clamped and goes to Jupiter gets neither. It goes there exactly when there is
      something to sell and the curve was read and has graduated or is priced for it. */
  lemma {:induction false} ClosesIffWhole(request: u64, curve: Option<CurveState>, fullExit: bool, priced: bool)
    ensures var p := FirstLeg(request, curve, fullExit, priced);
            && p.amount <= request && (p.clamped <==> p.amount < request)
            && (p.closes <==> fullExit && p.amount == request)
            && (p.drains <==> fullExit && p.amount < request && !p.jupiter)
            && (fullExit && !p.closes && !p.drains <==> fullExit && p.amount < request && p.jupiter)
            && (p.jupiter <==> p.amount > 0 && curve.Some? && (curve.value.complete || priced))
            && (curve.Some? ==> SolOut(p.amount, curve.value) <= curve.value.realSol * 90 / 100)
  {
    if curve.Some? {
      ClampSafe(request, curve.value);
      NoSaturation(request, curve.value);
    }
  }

  // ---- the drain loop -------------------------------------------------------------------------

  const MAX_DRAIN_LEGS: nat := 50
  const DUST: nat := 1000

  datatype Send = Sent | CurveComplete | SendFailed

  /** One pass of the loop as the outside world answers it: the balance before, the curve, the
      transaction, the balances polled to confirm it, the receipt, the balance after, and the answers to the
      Jupiter sale should that route be taken. */
  datatype Pass = Pass(
    pre: Option<u64>, curve: Option<CurveState>, send: Send, seen: seq<Option<u64>>, receipt: real,
    after: Option<u64>, tries: Tries)

  /** The close after the loop: the balance read, and the refund if the close went through. */
  datatype Closing = Closing(rem: Option<u64>, refund: Option<real>)

  datatype Leg = Leg(amount: u64, pre: u64, curve: CurveState)

  datatype Then = Go | Stop | Fail

  datatype PassResult = PassResult(legs: seq<Leg>, actual: real, next: Then)

  function OrZero(x: Option<u64>): u64 { if x.Some? then x.value else 0 }

  /** The rest of the balance through Jupiter, with the account to be closed; it ends the loop. */
  function ViaJupiter(p: Pass, legs: seq<Leg>): PassResult {
    match Sale(OrZero(p.pre), OrZero(p.pre), true, p.tries)
    case Received(total, _) => PassResult(legs, total, Stop)
    case Exhausted => PassResult(legs, 0.0, Fail)
  }

  predicate DustLeft(p: Pass, amount: u64, pre: u64, clamped: bool) {
    !clamped && amount >= SatSub(pre, Slack(pre)) && 0 < OrZero(p.after) <= DUST
  }

  /** One pass, in the program's order of checks. */
  function OnePass(p: Pass): PassResult {
    var pre := OrZero(p.pre);
    if pre == 0 then PassResult([], 0.0, Stop)
    else if p.curve.None? then PassResult([], 0.0, Stop)
    else if p.curve.value.complete then ViaJupiter(p, [])
    else
      var amount := Clamp(pre, p.curve.value);
      var legs := [Leg(amount, pre, p.curve.value)];
      if amount == 0 then PassResult([], 0.0, Stop)
      else if p.send.CurveComplete? then ViaJupiter(p, legs)
      else if p.send.SendFailed? || Poll(pre, amount, p.seen).None? then PassResult(legs, 0.0, Fail)
      else PassResult(legs, p.receipt, if DustLeft(p, amount, pre, amount < pre) then Stop else Go)
  }

  /** How one pass ends. With no balance or no curve it stops. On a live curve an amount of zero stops it; a
      leg that was not seen to land fails it; and after one that was, its receipt counts and the loop goes on,
      unless the whole balance was sold and 1 to 1000 units are still read. A graduated curve, or a
      transaction that says so, sends the balance to Jupiter. */
  lemma PassMeans(p: Pass)
    ensures var r, pre := OnePass(p), if p.pre.Some? then p.pre.value else 0;
            if pre == 0 || p.curve.None? then r == PassResult([], 0.0, Stop)
            else
              var amount := Clamp(pre, p.curve.value);
              var seen := p.send.Sent? && exists i :: 0 <= i < |p.seen| && Dropped(pre, amount, p.seen[i]);
              var dust := amount == pre && p.after.Some? && 1 <= p.after.value <= 1000;
              if p.curve.value.complete then r.legs == [] && !r.next.Go?
              else if amount == 0 then r == PassResult([], 0.0, Stop)
              else
                && r.legs == [Leg(amount, pre, p.curve.value)]
                && (!p.send.CurveComplete? && !seen ==> r.next.Fail? && r.actual == 0.0)
                && (seen ==> r.actual == p.receipt && !r.next.Fail? && (r.next.Stop? <==> dust))
                && (p.send.CurveComplete? ==> !r.next.Go?)
    ensures Graduates(p) ==>
              match Sale(OrZero(p.pre), OrZero(p.pre), true, p.tries)
              case Received(total, _) => OnePass(p).actual == total && OnePass(p).next.Stop?
              case Exhausted => OnePass(p).actual == 0.0 && OnePass(p).next.Fail?
  {
    hide Clamp, Poll, Sale, Dropped;
    var pre := OrZero(p.pre);
    if p.curve.Some? {
      ClampSafe(pre, p.curve.value);
      if Clamp(pre, p.curve.value) > 0 { PollIff(pre, Clamp(pre, p.curve.value), p.seen); }
    }
  }

  datatype Drained = Drained(legs: seq<Leg>, actual: real, failed: bool)

  function Passes(ps: seq<Pass>): Drained {
    if ps == [] then Drained([], 0.0, false)
    else
      var one := OnePass(ps[0]);
      if one.next.Go? then
        var rest := Passes(ps[1..]);
        Drained(one.legs + rest.legs, one.actual + rest.actual, rest.failed)
      else Drained(one.legs, one.actual, one.next.Fail?)
  }

  /** What the caller gets: a failed pass or a failed close loses the total. */
  function Finish(d: Drained, c: Closing): Option<real> {
    if d.failed then None
    else if OrZero(c.rem) != 0 then Some(d.actual)
    else if c.refund.Some? then Some(d.actual + c.refund.value)
    else None
  }

  /** `drain_pump_ata_after_clamped_full_exit`. `closes` tells whether CloseAccount was submitted. */
  method DrainAfterClampedExit(ps: seq<Pass>, c: Closing) returns (legs: seq<Leg>, total: Option<real>, closes: bool)
    requires |ps| == MAX_DRAIN_LEGS
    ensures legs == Passes(ps).legs && total == Finish(Passes(ps), c)
    ensures closes <==> !Passes(ps).failed && (c.rem == None || c.rem == Some(0))
    ensures total.None? <==> Passes(ps).failed || (closes && c.refund.None?)
    ensures total.Some? ==> total.value == Passes(ps).actual + if closes then c.refund.value else 0.0
  {
    hide Clamp, Poll, Passes, Sale;
    legs := [];
    var actual, leg, next := 0.0, 0, Go;
    NoPasses(ps);
    while leg < MAX_DRAIN_LEGS && next.Go?
      invariant 0 <= leg <= |ps|
      invariant Passes(ps) == if next.Go? then Onto(legs, actual, Passes(ps[leg..])) else Drained(legs, actual, next.Fail?)
      decreases |ps| - leg
    {
      var p := ps[leg];
      var pre := OrZero(p.pre);
      var one := PassResult([], 0.0, Stop);
      if pre != 0 && p.curve.Some? {
        var amount := Clamp(pre, p.curve.value);
        var sent := [Leg(amount, pre, p.curve.value)];
        if p.curve.value.complete {
          var sale := SellPostGraduation(pre, pre, true, p.tries);
          one := if sale.Received? then PassResult([], sale.total, Stop) else PassResult([], 0.0, Fail);
        } else if amount != 0 {
          match p.send
          case CurveComplete =>
            var sale := SellPostGraduation(pre, pre, true, p.tries);
            one := if sale.Received? then PassResult(sent, sale.total, Stop) else PassResult(sent, 0.0, Fail);
          case SendFailed =>
            one := PassResult(sent, 0.0, Fail);
          case Sent =>
            var post := PollConfirmsSell(pre, amount, p.seen);
            one := if post.None? then PassResult(sent, 0.0, Fail)
                   else PassResult(sent, p.receipt, if DustLeft(p, amount, pre, amount < pre) then Stop else Go);
        }
      }
      NextPass(legs, actual, ps, leg, one);
      legs, actual, next := legs + one.legs, actual + one.actual, one.next;
      leg := leg + 1;
    }
    AllPasses(legs, actual, ps);
    if next.Fail? {
      return legs, None, false;
    }
    closes := OrZero(c.rem) == 0;
    total := if !closes then Some(actual) else if c.refund.Some? then Some(actual + c.refund.value) else None;
  }

  lemma NoPasses(ps: seq<Pass>)
    ensures Onto([], 0.0, Passes(ps[0..])) == Passes(ps)
  {
    assert ps[0..] == ps;
    assert [] + Passes(ps).legs == Passes(ps).legs;
  }

  lemma NextPass(legs: seq<Leg>, actual: real, ps: seq<Pass>, leg: nat, one: PassResult)
    requires leg < |ps| && one == OnePass(ps[leg])
    ensures Onto(legs, actual, Passes(ps[leg..])) ==
            if one.next.Go? then Onto(legs + one.legs, actual + one.actual, Passes(ps[leg + 1..]))
            else Drained(legs + one.legs, actual + one.actual, one.next.Fail?)
  {
    hide OnePass;
    assert ps[leg..][1..] == ps[leg + 1..];
    OntoAssociates(legs, one.legs, actual, one.actual, Passes(ps[leg + 1..]));
  }

  lemma AllPasses(legs: seq<Leg>, actual: real, ps: seq<Pass>)
    ensures Onto(legs, actual, Passes(ps[|ps|..])) == Drained(legs, actual, false)
  {
    assert ps[|ps|..] == [];
    assert legs + [] == legs;
  }

  function Onto(legs: seq<Leg>, actual: real, rest: Drained): Drained {
    Drained(legs + rest.legs, actual + rest.actual, rest.failed)
  }

  lemma OntoAssociates(legs: seq<Leg>, ls: seq<Leg>, actual: real, more: real, rest: Drained)
    ensures Onto(legs, actual, Drained(ls + rest.legs, more + rest.actual, rest.failed)) == Onto(legs + ls, actual + more, rest)
  {
    assert legs + (ls + rest.legs) == legs + ls + rest.legs;
  }

  /** A leg that is safe to submit: positive, within the balance read just before, on a curve that had
      not graduated, projecting to at most 90% of its real reserve, and the largest such amount. */
  ghost predicate WithinCap(l: Leg) {
    && 0 < l.amount <= l.pre && !l.curve.complete
    && SolOut(l.amount, l.curve) <= l.curve.realSol * 90 / 100
    && forall u: u64 :: l.amount < u <= l.pre ==> SolOut(u, l.curve) > l.curve.realSol * 90 / 100
  }

  /** Whatever the chain answers, every leg that is submitted is within the cap. */
  lemma {:induction false} EveryLegWithinCap(ps: seq<Pass>)
    ensures |Passes(ps).legs| <= |ps| && forall l :: l in Passes(ps).legs ==> WithinCap(l)
  {
    if ps != [] {
      hide Clamp, WithinCap, Poll;
      if ps[0].curve.Some? { SizedLeg(OrZero(ps[0].pre), ps[0].curve.value); }
      EveryLegWithinCap(ps[1..]);
    }
  }

  lemma SizedLeg(pre: u64, c: CurveState)
    ensures Clamp(pre, c) > 0 && !c.complete ==> WithinCap(Leg(Clamp(pre, c), pre, c))
  {
    hide Clamp, SolOut;
    ClampSafe(pre, c);
  }

  // ---- receipts that do not come back ------------------------------------------------------------

  /** The loop gets to pass `i`. */
  predicate Reaches(ps: seq<Pass>, i: nat)
    requires i < |ps|
  {
    forall j :: 0 <= j < i ==> OnePass(ps[j]).next.Go?
  }

  predicate FailsAt(ps: seq<Pass>, i: nat) { i < |ps| && Reaches(ps, i) && OnePass(ps[i]).next.Fail? }

  /** The pass turns to Jupiter: the curve has graduated, or the transaction says so. */
  predicate Graduates(p: Pass) {
    OrZero(p.pre) != 0 && p.curve.Some?
    && (p.curve.value.complete || (Clamp(OrZero(p.pre), p.curve.value) != 0 && p.send.CurveComplete?))
  }

  /** The pass's own leg landed on the curve and is confirmed. */
  predicate Lands(p: Pass) {
    var pre := OrZero(p.pre);
    pre != 0 && p.curve.Some? && !p.curve.value.complete && Clamp(pre, p.curve.value) != 0
    && p.send.Sent? && Poll(pre, Clamp(pre, p.curve.value), p.seen).Some?
  }

  /** Something of the pass is confirmed on chain: its own leg, or a chunk of the Jupiter sale it turned to. */
  predicate Earns(p: Pass) {
    Lands(p) || (Graduates(p) && SaleConfirmed(OrZero(p.pre), OrZero(p.pre), p.tries) > 0)
  }

  /** The pass turns to Jupiter and loses what was confirmed there. */
  predicate LosesByJupiter(p: Pass) { Graduates(p) && SaleLoses(OrZero(p.pre), OrZero(p.pre), true, p.tries) }

  /** The money a pass brings in on chain. */
  function PassTaken(p: Pass): real {
    if Lands(p) then p.receipt
    else if Graduates(p) then SaleTaken(OrZero(p.pre), OrZero(p.pre), true, p.tries)
    else 0.0
  }

  predicate EarnsAt(ps: seq<Pass>, i: nat) { i < |ps| && Reaches(ps, i) && Earns(ps[i]) }

  lemma LandsOrGraduates(p: Pass)
    ensures !(Lands(p) && Graduates(p))
  {
    hide Clamp, Poll;
  }

  /** What a pass reports and how it ends, from what is confirmed: it goes on only after its own leg; it
      reports what it took unless it fails; and a failed pass took something exactly when Jupiter lost it. */
  lemma PassAccounts(p: Pass)
    ensures var r := OnePass(p);
            && (r.next.Go? ==> Lands(p))
            && (!r.next.Fail? ==> r.actual == PassTaken(p))
            && (r.next.Fail? ==> r.actual == 0.0 && (Earns(p) <==> LosesByJupiter(p)) && (!Earns(p) ==> PassTaken(p) == 0.0))
            && (LosesByJupiter(p) ==> r.next.Fail?)
  {
    hide Clamp, Poll, Sale, SaleLoses, SaleTaken, SaleConfirmed;
    var pre := OrZero(p.pre);
    ReceiptsLostIff(pre, pre, true, p.tries);
    NothingConfirmed(pre, pre, true, p.tries);
  }

  lemma FailsLater(ps: seq<Pass>, i: nat)
    requires ps != [] && OnePass(ps[0]).next.Go?
    ensures FailsAt(ps, i + 1) <==> FailsAt(ps[1..], i)
    ensures !FailsAt(ps, 0)
  {
    hide OnePass, Reaches;
    if i + 1 < |ps| { LaterReach(ps, i); }
  }

  lemma FirstFails(ps: seq<Pass>, i: nat)
    requires ps != [] && !OnePass(ps[0]).next.Go?
    ensures FailsAt(ps, i) <==> i == 0 && OnePass(ps[0]).next.Fail?
  {
    hide OnePass;
  }

  lemma {:induction false} FailedMeaning(ps: seq<Pass>)
    ensures Passes(ps).failed <==> exists i :: FailsAt(ps, i)
  {
    if ps == [] {
    } else if OnePass(ps[0]).next.Go? {
      hide OnePass, FailsAt;
      FailedMeaning(ps[1..]);
      if exists i :: FailsAt(ps[1..], i) {
        var i :| FailsAt(ps[1..], i);
        FailsLater(ps, i);
      }
      if exists i :: FailsAt(ps, i) {
        var i :| FailsAt(ps, i);
        FailsLater(ps, SatSub(i, 1));
      }
    } else {
      hide OnePass, FailsAt;
      FirstFails(ps, 0);
      if exists i :: FailsAt(ps, i) {
        var i :| FailsAt(ps, i);
        FirstFails(ps, i);
      }
    }
  }

  lemma LaterReach(ps: seq<Pass>, i: nat)
    requires i + 1 < |ps| && OnePass(ps[0]).next.Go?
    ensures Reaches(ps, i + 1) <==> Reaches(ps[1..], i)
  {
    hide OnePass;
    if Reaches(ps, i + 1) {
      forall j | 0 <= j < i ensures OnePass(ps[1..][j]).next.Go? { assert ps[1..][j] == ps[j + 1]; }
    }
    if Reaches(ps[1..], i) {
      forall j | 0 <= j < i + 1 ensures OnePass(ps[j]).next.Go? { if j > 0 { assert ps[1..][j - 1] == ps[j]; } }
    }
  }

  /** The close after the loop was asked for and did not go through. */
  predicate CloseFails(c: Closing) { OrZero(c.rem) == 0 && c.refund.None? }

  /** Confirmed proceeds are behind a drain that returns nothing if and only if a pass after the first
      fails, or the first fails in a Jupiter sale that had confirmed a chunk, or every pass went well, one
      earned, and the final close fails. */
  lemma {:induction false} DrainLosesIff(ps: seq<Pass>, c: Closing)
    ensures Finish(Passes(ps), c).None? && (exists i :: EarnsAt(ps, i)) <==>
            (exists i :: i > 0 && FailsAt(ps, i))
            || (ps != [] && LosesByJupiter(ps[0]))
            || ((forall i :: !FailsAt(ps, i)) && (exists i :: EarnsAt(ps, i)) && CloseFails(c))
  {
    hide OnePass, Earns, Lands, Graduates, LosesByJupiter, Passes;
    FailedMeaning(ps);
    if ps != [] {
      PassAccounts(ps[0]);
      LandsEarns(ps[0]);
      if LosesByJupiter(ps[0]) { assert FailsAt(ps, 0) && EarnsAt(ps, 0); }
    }
    if exists i :: i > 0 && FailsAt(ps, i) {
      var i :| i > 0 && FailsAt(ps, i);
      assert EarnsAt(ps, 0);
    }
    if FailsAt(ps, 0) {
      forall i ensures EarnsAt(ps, i) ==> i == 0 { }
    }
  }

  lemma LandsEarns(p: Pass)
    ensures Lands(p) ==> Earns(p)
    ensures LosesByJupiter(p) ==> Earns(p)
  {
    hide Clamp, Poll, SaleLoses, SaleConfirmed;
    ReceiptsLostIff(OrZero(p.pre), OrZero(p.pre), true, p.tries);
  }

  /** The money the passes of a drain bring in on chain, up to the one that ends it. */
  function DrainTaken(ps: seq<Pass>): real {
    if ps == [] then 0.0
    else PassTaken(ps[0]) + if OnePass(ps[0]).next.Go? then DrainTaken(ps[1..]) else 0.0
  }

  /** A drain that does not fail reports exactly what its passes took. */
  lemma {:induction false} DrainReportsTaken(ps: seq<Pass>)
    ensures !Passes(ps).failed ==> Passes(ps).actual == DrainTaken(ps)
  {
    if ps != [] {
      hide OnePass, PassTaken, Lands;
      PassAccounts(ps[0]);
      DrainReportsTaken(ps[1..]);
    }
  }

  /** The refund of a close that went through. */
  function CloseTaken(d: Drained, c: Closing): real {
    if !d.failed && OrZero(c.rem) == 0 && c.refund.Some? then c.refund.value else 0.0
  }

  /** The money of a drain: what it took and does not report is nothing, or everything when it fails. */
  lemma {:induction false} DrainMoney(ps: seq<Pass>, c: Closing)
    ensures var r := Finish(Passes(ps), c);
            DrainTaken(ps) + CloseTaken(Passes(ps), c) - (if r.Some? then r.value else 0.0) == if r.None? then DrainTaken(ps) else 0.0
  {
    hide Passes, DrainTaken;
    DrainReportsTaken(ps);
  }

  /** Every receipt of a pass, and of its Jupiter sale, is positive. */
  predicate PassPays(p: Pass) { p.receipt > 0.0 && Pays(p.tries[0]) && Pays(p.tries[1]) }

  lemma {:induction false} DrainPays(ps: seq<Pass>)
    requires forall i :: 0 <= i < |ps| ==> PassPays(ps[i])
    ensures DrainTaken(ps) >= 0.0
  {
    if ps != [] {
      hide OnePass, Clamp, Poll, SaleTaken, Pays;
      SalePays(OrZero(ps[0].pre), OrZero(ps[0].pre), true, ps[0].tries);
      DrainPays(ps[1..]);
    }
  }

  // ---- a drain that has the curve to itself ----------------------------------------------------

  /** The next leg's size. */
  function Sized(bal: u64, c: CurveState): (a: u64)
    ensures a <= bal
  {
    ClampSafe(bal, c);
    Clamp(bal, c)
  }

  /** Nobody else trades: every pass sees the balance and the curve that our own legs left behind, and
      every transaction lands and is confirmed. */
  predicate Quiet(ps: seq<Pass>, bal: u64, c: CurveState)
    requires c.vtr + bal <= U64_MAX
  {
    ps == []
    || (&& ps[0].pre == Some(bal) && ps[0].curve == Some(c) && ps[0].send.Sent?
        && Poll(bal, Sized(bal, c), ps[0].seen).Some?
        && ps[0].after == Some(bal - Sized(bal, c))
        && Quiet(ps[1..], bal - Sized(bal, c), AfterLeg(Sized(bal, c), c)))
  }

  function Amounts(legs: seq<Leg>): seq<u64> {
    if legs == [] then [] else [legs[0].amount] + Amounts(legs[1..])
  }

  /** The curve after selling the amounts in turn. */
  function After(legs: seq<u64>, c: CurveState): CurveState
    requires c.vtr + Total(legs) <= U64_MAX
  {
    if legs == [] then c else After(legs[1..], AfterLeg(legs[0], c))
  }

  lemma QuietPass(p: Pass, bal: u64, c: CurveState)
    requires p.pre == Some(bal) && p.curve == Some(c) && !c.complete && p.send.Sent? && p.after == Some(bal - Sized(bal, c))
    requires Poll(bal, Sized(bal, c), p.seen).Some?
    ensures OnePass(p) == if Sized(bal, c) == 0 then PassResult([], 0.0, Stop) else PassResult([Leg(Sized(bal, c), bal, c)], p.receipt, Go)
  {
    hide Poll, SolOut;
  }

  /** What a drain has done to a curve and a balance of its own, in `n` passes. */
  predicate Settles(d: Drained, n: nat, bal: u64, c: CurveState)
    requires c.vtr + bal <= U64_MAX
  {
    var sold := Amounts(d.legs);
    && !d.failed && |sold| == |d.legs| && Total(sold) <= bal
    && LegsOut(sold, c) <= c.realSol && After(sold, c).realSol == c.realSol - LegsOut(sold, c)
    && (Total(sold) == bal || |d.legs| == n || Clamp(bal - Total(sold), After(sold, c)) == 0)
  }

  lemma OneMoreSettles(rest: Drained, n: nat, bal: u64, c: CurveState, receipt: real)
    requires c.vtr + bal <= U64_MAX
    requires Settles(rest, n, bal - Sized(bal, c), AfterLeg(Sized(bal, c), c))
    ensures Settles(Drained([Leg(Sized(bal, c), bal, c)] + rest.legs, receipt + rest.actual, rest.failed), n + 1, bal, c)
  {
    var a := Sized(bal, c);
    ClampSafe(bal, c);
    FirstLegs(Leg(a, bal, c), rest.legs, c);
    hide Clamp, SolOut, LegsOut, After, Amounts, Total;
  }

  lemma NoLegSettles(n: nat, bal: u64, c: CurveState)
    requires c.vtr + bal <= U64_MAX && (n == 0 || Sized(bal, c) == 0)
    ensures Settles(Drained([], 0.0, false), n, bal, c)
  {
    hide Clamp, SolOut;
    assert Amounts([]) == [];
  }

  /** Left alone, the drain never fails; its legs sell no more than the balance; the real reserve pays
      every lamport of them exactly; and it ends with everything sold, with its passes used up, or at a
      curve whose cap no longer buys one raw unit. */
  lemma {:induction false} QuietDrain(ps: seq<Pass>, bal: u64, c: CurveState)
    requires c.vtr + bal <= U64_MAX && !c.complete && Quiet(ps, bal, c)
    ensures Settles(Passes(ps), |ps|, bal, c)
  {
    hide Clamp, Poll, SolOut, OnePass, Settles, Sized;
    if ps == [] {
      NoLegSettles(0, bal, c);
    } else {
      var a := Sized(bal, c);
      QuietPass(ps[0], bal, c);
      if a != 0 {
        QuietDrain(ps[1..], bal - a, AfterLeg(a, c));
        OneMoreSettles(Passes(ps[1..]), |ps| - 1, bal, c, ps[0].receipt);
      } else {
        NoLegSettles(|ps|, bal, c);
      }
    }
  }

  lemma FirstLegs(l: Leg, rest: seq<Leg>, c: CurveState)
    requires c.vtr + l.amount + Total(Amounts(rest)) <= U64_MAX
    ensures var sold := Amounts([l] + rest);
            && sold == [l.amount] + Amounts(rest) && Total(sold) == l.amount + Total(Amounts(rest))
            && LegsOut(sold, c) == SolOut(l.amount, c) + LegsOut(Amounts(rest), AfterLeg(l.amount, c))
            && After(sold, c) == After(Amounts(rest), AfterLeg(l.amount, c))
  {
    hide SolOut;
    assert ([l] + rest)[1..] == rest;
    assert ([l.amount] + Amounts(rest))[1..] == Amounts(rest);
  }

  /** So a quiet drain in j legs earns at least what one sale of the same tokens would on paper, and at
      most j - 1 lamports more. */
  lemma {:induction false} QuietDrainEarns(ps: seq<Pass>, bal: u64, c: CurveState)
    requires c.Live() && c.vtr + bal <= U64_MAX && !c.complete
    ensures Quiet(ps, bal, c) && Passes(ps).legs != [] ==>
              var sold := Amounts(Passes(ps).legs);
              && Total(sold) <= bal
              && SolOut(Total(sold), c) <= LegsOut(sold, c) <= SolOut(Total(sold), c) + |sold| - 1
  {
    hide SolOut, LegsOut, Clamp, Passes, Quiet;
    if Quiet(ps, bal, c) && Passes(ps).legs != [] {
      QuietDrain(ps, bal, c);
      SplitBounds(Amounts(Passes(ps).legs), c);
    }
  }
}
