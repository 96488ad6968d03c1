/**
 Constant-product arithmetic of the pump.fun bonding curve (src/autobuy/pump_brocker.rs).
 Raw amounts are u64 in the program and all products are taken in u128 with saturating
 operators; both widths are written out here.
 */
module Curve {

  import opened Common

  const U128_MAX: nat := 0xFFFF_FFFF_FFFF_FFFF_FFFF_FFFF_FFFF_FFFF

  type u64 = n: nat | n <= U64_MAX

  /** The reserves of a decoded bonding-curve account, and its `complete` flag. */
  datatype CurveState = CurveState(vtr: u64, vsr: u64, realSol: u64, complete: bool) {
    predicate Live() { vtr > 0 && vsr > 0 }
  }

  function SatAdd128(a: nat, b: nat): nat { if a + b > U128_MAX then U128_MAX else a + b }

  function SatMul128(a: nat, b: nat): nat { if a * b > U128_MAX then U128_MAX else a * b }

  function Quot(n: nat, d: nat): nat
    requires d > 0
  {
    n / d
  }

  function ToU64(a: nat): u64 { if a > U64_MAX then U64_MAX else a }

  /** `pump_sol_out_for_tokens`: gross lamports for selling `t` raw tokens. */
  function SolOut(t: u64, c: CurveState): u64 {
    if t == 0 || c.vsr == 0 || c.vtr == 0 then 0
    else
      var newVtr := SatAdd128(c.vtr, t);
      if newVtr == 0 then 0
      else ToU64(SatSub(c.vsr, Quot(SatMul128(c.vsr, c.vtr), newVtr)))
  }

  /** `pump_max_sellable_tokens_for_sol`: the inverse used to size a sell down. */
  function MaxSellable(target: u64, c: CurveState): u64 {
    if target == 0 || c.vsr == 0 || c.vtr == 0 then 0
    else if target >= c.vsr then U64_MAX
    else
      var newVtr := Quot(SatMul128(c.vsr, c.vtr), c.vsr - target);
      if newVtr <= c.vtr then 0 else ToU64(SatSub(newVtr, c.vtr))
  }

  /** 90% of the real SOL reserves: the cap on the projected output of one leg. */
  function SafetyCap(c: CurveState): u64 { ToU64(SatMul128(c.realSol, 90) / 100) }

  /** The clamp of `sell` and of every drain leg after a successful curve read. */
  function Clamp(t: u64, c: CurveState): u64 {
    if SolOut(t, c) > SafetyCap(c) then
      var m := MaxSellable(SafetyCap(c), c);
      if m < t then m else t
    else t
  }

  // ---- division facts ---------------------------------------------------------

  /** Floor division as an adjoint: `q <= n / d` exactly when `q * d <= n`. */
  lemma DivAdjoint(n: nat, d: nat, q: nat)
    requires d > 0
    ensures q <= n / d <==> q * d <= n
  {
    var k, r := n / d, n % d;
    assert n == k * d + r;
    if q <= k {
      assert q * d <= k * d by { MulMono(q, k, d); }
    } else {
      assert (k + 1) * d <= q * d by { MulMono(k + 1, q, d); }
      assert (k + 1) * d == k * d + d;
    }
  }

  lemma MulMono(a: nat, b: nat, c: nat)
    requires a <= b
    ensures a * c <= b * c
  {
    assert b * c - a * c == (b - a) * c;
  }

  // ---- no overflow ------------------------------------------------------------

  lemma ProductFits(a: u64, b: u64)
    ensures a * b <= U128_MAX
  {
    MulMono(a, U64_MAX, b);
    assert U64_MAX * b <= U64_MAX * U64_MAX;
  }

  /** A quotient by more than one factor of a product is at most the other factor. */
  lemma QuotientAtMost(a: nat, b: nat, d: nat)
    requires 0 < b <= d
    ensures a * b / d <= a
    ensures b < d && 0 < a ==> a * b / d < a
  {
    DivAdjoint(a * b, d, a + 1);
    assert (a + 1) * d == a * d + d;
    MulMono(b, d, a);
    if b < d {
      DivAdjoint(a * b, d, a);
      MulMono(b + 1, d, a);
      assert (b + 1) * a == a * b + a;
    }
  }

  /** None of the saturating u128 operators, nor a cast back to u64, ever saturates. */
  lemma NoSaturation(t: u64, c: CurveState)
    ensures SatAdd128(c.vtr, t) == c.vtr + t
    ensures SatMul128(c.vsr, c.vtr) == c.vsr * c.vtr
    ensures SafetyCap(c) == c.realSol * 90 / 100
  {
    ProductFits(c.vsr, c.vtr);
  }

  /** The SOL reserve that stays behind when `t` tokens are sold, in exact arithmetic. */
  function Left(t: nat, c: CurveState): nat
    requires c.vtr > 0
  {
    Quot(c.vsr * c.vtr, c.vtr + t)
  }

  lemma LeftAdjoint(t: nat, c: CurveState, q: nat)
    requires c.vtr > 0
    ensures q <= Left(t, c) <==> q * (c.vtr + t) <= c.vsr * c.vtr
  {
    DivAdjoint(c.vsr * c.vtr, c.vtr + t, q);
  }

  lemma LeftBound(t: nat, c: CurveState)
    requires c.vtr > 0
    ensures Left(t, c) <= c.vsr
    ensures t > 0 && c.vsr > 0 ==> Left(t, c) < c.vsr
    ensures t == 0 ==> Left(t, c) == c.vsr
  {
    QuotientAtMost(c.vsr, c.vtr, c.vtr + t);
    if t == 0 { DivAdjoint(c.vsr * c.vtr, c.vtr, c.vsr); }
  }

  lemma SolOutLive(t: u64, c: CurveState)
    requires c.Live() && t > 0
    ensures SolOut(t, c) == c.vsr - Left(t, c)
  {
    hide Quot;
    NoSaturation(t, c);
    LeftBound(t, c);
  }

  /** The output is what the SOL reserve loses. */
  lemma SolOutExact(t: u64, c: CurveState)
    requires c.vtr > 0
    ensures SolOut(t, c) == c.vsr - Left(t, c)
  {
    hide Left;
    LeftBound(t, c);
    if c.Live() && t > 0 { SolOutLive(t, c); }
  }

  /** The output is the constant-product one, to the lamport: what stays in the curve times the new token
      reserve is at most the old product, and with one lamport more it would exceed it. */
  lemma ProductKept(t: u64, c: CurveState)
    requires c.Live()
    ensures SolOut(t, c) <= c.vsr
    ensures (c.vsr - SolOut(t, c)) * (c.vtr + t) <= c.vsr * c.vtr < (c.vsr - SolOut(t, c) + 1) * (c.vtr + t)
  {
    SolOutExact(t, c);
    hide SolOut, Left;
    LeftBound(t, c);
    LeftAdjoint(t, c, c.vsr - SolOut(t, c));
    LeftAdjoint(t, c, c.vsr - SolOut(t, c) + 1);
  }

  // ---- the exact inverse ------------------------------------------------------

  /** A size is within the inverse's answer exactly when the product still covers `vsr - s`. */
  lemma WithinMaxSellable(t: u64, s: u64, c: CurveState)
    requires c.Live() && 0 < s < c.vsr
    ensures t <= MaxSellable(s, c) <==> (c.vsr - s) * (c.vtr + t) <= c.vsr * c.vtr
  {
    NoSaturation(t, c);
    DivAdjoint(c.vsr * c.vtr, c.vsr - s, c.vtr + t);
    DivAdjoint(c.vsr * c.vtr, c.vsr - s, c.vtr);
    MulMono(c.vsr - s, c.vsr, c.vtr);
  }

  /** Exact inverse, for every curve with positive reserves and all u64 inputs. */
  lemma ExactInverse(t: u64, s: u64, c: CurveState)
    requires c.Live()
    ensures SolOut(t, c) <= s <==> t <= MaxSellable(s, c)
  {
    SolOutExact(t, c);
    hide SolOut, Left;
    LeftBound(t, c);
    if 0 < s < c.vsr {
      hide MaxSellable;
      WithinMaxSellable(t, s, c);
      LeftAdjoint(t, c, c.vsr - s);
    }
  }

  /** Positive reserves are exactly what the inverse law needs. */
  lemma InverseIffLive(c: CurveState)
    ensures (forall t: u64, s: u64 :: SolOut(t, c) <= s <==> t <= MaxSellable(s, c)) <==> c.Live()
  {
    if c.Live() {
      forall t: u64, s: u64 ensures SolOut(t, c) <= s <==> t <= MaxSellable(s, c) {
        ExactInverse(t, s, c);
      }
    } else {
      assert SolOut(1, c) <= 0 && !(1 <= MaxSellable(0, c));
    }
  }

  /** Whatever `sell` or a drain leg submits projects to at most 90% of the real reserves,
      is never more than requested, and is the largest such amount. */
  lemma ClampSafe(t: u64, c: CurveState)
    ensures Clamp(t, c) <= t
    ensures SolOut(Clamp(t, c), c) <= c.realSol * 90 / 100
    ensures forall u: u64 :: Clamp(t, c) < u <= t ==> SolOut(u, c) > c.realSol * 90 / 100
  {
    NoSaturation(t, c);
    if SolOut(t, c) > SafetyCap(c) {
      assert c.Live();
      ExactInverse(Clamp(t, c), SafetyCap(c), c);
      ExactInverse(t, SafetyCap(c), c);
      forall u: u64 | Clamp(t, c) < u <= t ensures SolOut(u, c) > SafetyCap(c) {
        ExactInverse(u, SafetyCap(c), c);
      }
    }
  }

  // ---- consecutive legs -------------------------------------------------------

  /** The reserves after one leg, by the same formula; the real SOL pays the output. */
  function AfterLeg(t: u64, c: CurveState): CurveState
    requires c.vtr + t <= U64_MAX
  {
    CurveState(c.vtr + t, SatSub(c.vsr, SolOut(t, c)), SatSub(c.realSol, SolOut(t, c)), c.complete)
  }

  function Total(legs: seq<u64>): nat { if legs == [] then 0 else legs[0] + Total(legs[1..]) }

  /** Lamports obtained by selling the legs one after the other. */
  function LegsOut(legs: seq<u64>, c: CurveState): nat
    requires c.vtr + Total(legs) <= U64_MAX
  {
    if legs == [] then 0 else SolOut(legs[0], c) + LegsOut(legs[1..], AfterLeg(legs[0], c))
  }

  /** `lost` floored legs after product `k`: the reserve is short by less than `lost` lamports. */
  predicate Drifted(k: nat, vsr: nat, vtr: nat, lost: nat) {
    vsr * vtr <= k && k + lost <= (vsr + lost) * vtr
  }

  lemma DriftStep(k: nat, vsr: nat, vtr: nat, lost: nat, vtr': nat)
    requires 0 < vtr <= vtr' && Drifted(k, vsr, vtr, lost)
    ensures Drifted(k, vsr * vtr / vtr', vtr', lost + 1)
  {
    var p := vsr * vtr;
    var left := p / vtr';
    DivAdjoint(p, vtr', left);
    DivAdjoint(p, vtr', left + 1);
    assert (left + (lost + 1)) * vtr' == (left + 1) * vtr' + lost * vtr';
    assert (vsr + lost) * vtr == p + lost * vtr;
    MulMono(vtr, vtr', lost);
  }

  lemma DriftEnd(k: nat, vsr: nat, vtr: nat, lost: nat)
    requires 0 < vtr && Drifted(k, vsr, vtr, lost)
    ensures vsr <= k / vtr
    ensures k / vtr <= if lost == 0 then vsr else vsr + lost - 1
  {
    DivAdjoint(k, vtr, vsr);
    DivAdjoint(k, vtr, vsr + lost);
    DivAdjoint(k, vtr, vsr + 1);
    assert (vsr + 1) * vtr == vsr * vtr + vtr;
  }

  lemma DriftLeg(t: nat, c: CurveState, k: nat, lost: nat)
    requires c.vtr > 0 && Drifted(k, c.vsr, c.vtr, lost)
    ensures Drifted(k, Left(t, c), c.vtr + t, lost + 1)
  {
    DriftStep(k, c.vsr, c.vtr, lost, c.vtr + t);
  }

  /** The reserve left after any legs, against the product `k` the first of them started from. */
  lemma {:induction false} LegsBound(legs: seq<u64>, c: CurveState, k: nat, lost: nat)
    requires c.vtr > 0 && c.vtr + Total(legs) <= U64_MAX
    requires Drifted(k, c.vsr, c.vtr, lost)
    ensures LegsOut(legs, c) <= c.vsr
    ensures Drifted(k, c.vsr - LegsOut(legs, c), c.vtr + Total(legs), lost + |legs|)
    decreases |legs|
  {
    if legs != [] {
      hide SolOut, Left, Drifted;
      SolOutExact(legs[0], c);
      LeftBound(legs[0], c);
      DriftLeg(legs[0], c, k, lost);
      LegsBound(legs[1..], AfterLeg(legs[0], c), k, lost + 1);
    }
  }

  /** Splitting a sale into j >= 1 legs yields at least the single-sale lamports and at most
      j - 1 more, for all reserves and leg sizes that fit the account's u64 fields. */
  lemma SplitBounds(legs: seq<u64>, c: CurveState)
    requires c.Live() && |legs| > 0 && c.vtr + Total(legs) <= U64_MAX
    ensures SolOut(Total(legs), c) <= LegsOut(legs, c) <= SolOut(Total(legs), c) + |legs| - 1
  {
    hide SolOut, LegsOut, Total, AfterLeg;
    var k, vtr, left := c.vsr * c.vtr, c.vtr + Total(legs), c.vsr - LegsOut(legs, c);
    LegsBound(legs, c, k, 0);
    DriftEnd(k, left, vtr, |legs|);
    SolOutExact(Total(legs), c);
  }

  /** The upper bound is attained: two legs can earn one lamport more than one. */
  lemma SplitBoundTight()
    ensures exists c: CurveState, a: u64, b: u64 ::
              c.Live() && c.vtr + a + b <= U64_MAX
              && SolOut(a, c) + SolOut(b, AfterLeg(a, c)) == SolOut(a + b, c) + 1
  {
    var c := CurveState(1, 3, 0, false);
    assert SolOut(1, c) == 2;
    var d := AfterLeg(1, c);
    assert d == CurveState(2, 1, 0, false);
    assert SolOut(1, d) == 1;
    assert SolOut(2, c) == 2;
    assert c.Live() && c.vtr + 1 + 1 <= U64_MAX
           && SolOut(1, c) + SolOut(1, AfterLeg(1, c)) == SolOut(1 + 1, c) + 1;
  }
}
