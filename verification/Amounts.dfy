/**
 Fixed-point amounts with nine decimals (src/helper.rs): a u64 count of raw units. Floats are
 reals, so the only rounding left is the one `from_float_native` performs.
 */
module Amounts {

  import opened Common

  const SCALE: real := 1000000000.0

  /** `(x).round() as u64`: half away from zero, then the saturating cast. */
  function RoundU64(x: real): (n: nat)
    ensures n <= U64_MAX
  {
    if x <= 0.0 then 0
    else if (x + 0.5).Floor > U64_MAX then U64_MAX
    else (x + 0.5).Floor
  }

  function FromFloatNative(v: real): nat { RoundU64(v * SCALE) }

  function ToFloat(raw: nat): real { raw as real / SCALE }

  function Abs(x: real): real { if x < 0.0 then -x else x }

  /** In range, rounding moves a value by at most half a raw unit. */
  lemma RoundError(x: real)
    requires 0.0 <= x <= U64_MAX as real
    ensures Abs(RoundU64(x) as real - x) <= 0.5
  {
    var f := (x + 0.5).Floor;
    assert f as real <= x + 0.5 < (U64_MAX + 1) as real;
  }

  /** Reading a raw amount as a float and converting it back changes nothing. */
  lemma AmountRoundTrip(raw: nat)
    requires raw <= U64_MAX
    ensures FromFloatNative(ToFloat(raw)) == raw
  {
    var x := raw as real;
    assert raw as real / SCALE * SCALE == x;
    assert (x + 0.5).Floor == raw by {
      assert raw as real <= x + 0.5 < (raw + 1) as real;
    }
  }

  // ---- products and quotients of reals ----------------------------------------------------------

  lemma Strict(a: real, b: real, k: real)
    requires a < b && k > 0.0
    ensures a * k < b * k
  {
  }

  lemma SameOrder(d: real, y: real, h: real, dh: real, yh: real)
    requires h > 0.0 && dh == d * h && yh == y * h
    ensures d >= y <==> dh >= yh
  {
    var gap := d - y;
    assert gap * h == dh - yh;
    assert gap >= 0.0 <==> gap * h >= 0.0;
  }

  lemma RatioAtLeast(a: real, h: real, y: real, yh: real)
    requires h > 0.0 && yh == y * h
    ensures a >= yh <==> a / h >= y
  {
    SameOrder(a / h, y, h, a, yh);
  }
}
