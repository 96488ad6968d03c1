/**
 The two-stage median / band filter on the exit mcap tape (src/autobuy/exit_engine.rs).
 Market caps are reals; NaN and infinities have no counterpart.
 */
module ExitFilter {

  import opened Common

  const ABS_MAX: real := 200000.0

  /** `exit_mcap_valid`. */
  predicate ValidMcap(m: real) { 0.0 < m <= ABS_MAX }

  function Valids(s: seq<real>): (v: seq<real>)
    ensures forall x :: x in v <==> x in s && ValidMcap(x)
    ensures |v| <= |s|
  {
    if s == [] then []
    else if ValidMcap(s[0]) then [s[0]] + Valids(s[1..])
    else Valids(s[1..])
  }

  // ---- sorting and ranks ------------------------------------------------------

  function Insert(x: real, s: seq<real>): seq<real> {
    if s == [] || x <= s[0] then [x] + s else [s[0]] + Insert(x, s[1..])
  }

  function Sort(s: seq<real>): seq<real> {
    if s == [] then [] else Insert(s[0], Sort(s[1..]))
  }

  ghost predicate Sorted(s: seq<real>) { forall i, j :: 0 <= i < j < |s| ==> s[i] <= s[j] }

  /** How many samples are strictly below `x`. */
  function Below(s: seq<real>, x: real): nat {
    if s == [] then 0 else (if s[0] < x then 1 else 0) + Below(s[1..], x)
  }

  /** How many samples are at most `x`. */
  function UpTo(s: seq<real>, x: real): nat {
    if s == [] then 0 else (if s[0] <= x then 1 else 0) + UpTo(s[1..], x)
  }

  /** How many samples lie in `[lo, hi]`. */
  function Within(s: seq<real>, lo: real, hi: real): nat {
    if s == [] then 0 else (if lo <= s[0] <= hi then 1 else 0) + Within(s[1..], lo, hi)
  }

  /** The upper median by rank, with no reference to sorting. */
  predicate IsMedian(s: seq<real>, m: real) {
    m in s && Below(s, m) <= |s| / 2 < UpTo(s, m)
  }

  lemma ConsSorted(x: real, s: seq<real>)
    requires Sorted(s) && forall y :: y in s ==> x <= y
    ensures Sorted([x] + s)
  {
    forall i, j | 0 <= i < j < |s| + 1 ensures ([x] + s)[i] <= ([x] + s)[j] {
      assert ([x] + s)[j] == s[j - 1] && s[j - 1] in s;
    }
  }

  lemma {:induction false} InsertFacts(x: real, s: seq<real>)
    requires Sorted(s)
    ensures Sorted(Insert(x, s)) && |Insert(x, s)| == |s| + 1
    ensures forall y :: y in Insert(x, s) <==> y == x || y in s
    ensures forall y :: Below(Insert(x, s), y) == (if x < y then 1 else 0) + Below(s, y)
    ensures forall y :: UpTo(Insert(x, s), y) == (if x <= y then 1 else 0) + UpTo(s, y)
  {
    if s == [] || x <= s[0] {
      assert ([x] + s)[1..] == s;
      forall y | y in s ensures x <= y { if s != [] { assert s[0] <= y; } }
      ConsSorted(x, s);
    } else {
      var rest := Insert(x, s[1..]);
      InsertFacts(x, s[1..]);
      assert ([s[0]] + rest)[1..] == rest;
      forall y | y in rest ensures s[0] <= y { if y != x { assert y in s[1..]; } }
      ConsSorted(s[0], rest);
    }
  }

  lemma {:induction false} SortFacts(s: seq<real>)
    ensures Sorted(Sort(s)) && |Sort(s)| == |s|
    ensures forall y :: y in Sort(s) <==> y in s
    ensures forall y :: Below(Sort(s), y) == Below(s, y) && UpTo(Sort(s), y) == UpTo(s, y)
  {
    if s != [] {
      SortFacts(s[1..]);
      InsertFacts(s[0], Sort(s[1..]));
    }
  }

  /** In a sorted sequence, at most `k` samples are below the one at index `k`, and more than
      `k` are up to it. */
  lemma {:induction false} SortedRank(s: seq<real>, k: nat, x: real)
    requires Sorted(s) && k < |s|
    ensures x == s[k] ==> Below(s, x) <= k < UpTo(s, x)
    ensures x < s[0] ==> UpTo(s, x) == 0
    ensures x <= s[0] ==> Below(s, x) == 0
  {
    if |s| > 1 {
      assert s[0] <= s[1];
      SortedRank(s[1..], if k == 0 then 0 else k - 1, x);
    }
  }

  /** `exit_mcap_median`: sort the valid samples and take index `len / 2`. */
  function Median(s: seq<real>): Option<real> {
    var v := Sort(Valids(s));
    SortFacts(Valids(s));
    if v == [] then None else Some(v[|v| / 2])
  }

  lemma RankMonotone(s: seq<real>, x: real, y: real)
    requires x < y
    ensures UpTo(s, x) <= Below(s, y)
  {
  }

  lemma Counts(s: seq<real>, lo: real, hi: real)
    ensures UpTo(s, hi) <= |s| && Within(s, lo, hi) <= UpTo(s, hi)
    ensures lo <= hi ==> Within(s, lo, hi) == UpTo(s, hi) - Below(s, lo)
  {
  }

  /** The sort-and-index median is exactly the rank median of the valid samples. */
  lemma MedianByRank(s: seq<real>, m: real)
    ensures Median(s) == Some(m) <==> IsMedian(Valids(s), m)
    ensures Median(s).None? <==> forall x :: x in s ==> !ValidMcap(x)
  {
    var v := Valids(s);
    SortFacts(v);
    if v != [] {
      var k := |v| / 2;
      var a := Sort(v)[k];
      SortedRank(Sort(v), k, a);
      assert IsMedian(v, a);
      if IsMedian(v, m) && m != a {
        RankMonotone(v, if m < a then m else a, if m < a then a else m);
      }
      assert v[0] in s;
    }
  }

  // ---- the filter -------------------------------------------------------------

  /** `exit_mcap_matches_band`. */
  predicate InBand(m: real, median: Option<real>, low: real, high: real) {
    ValidMcap(m) && (median.None? || median.value <= 0.0
                     || (median.value * low <= m <= median.value * high))
  }

  function Band(s: seq<real>, median: Option<real>, low: real, high: real): (b: seq<real>)
    ensures forall x :: x in b <==> x in s && InBand(x, median, low, high)
  {
    if s == [] then []
    else if InBand(s[0], median, low, high) then [s[0]] + Band(s[1..], median, low, high)
    else Band(s[1..], median, low, high)
  }

  /** The newest valid sample. */
  function LastValid(s: seq<real>): Option<real> {
    if s == [] then None
    else if ValidMcap(s[|s| - 1]) then Some(s[|s| - 1])
    else LastValid(s[..|s| - 1])
  }

  /** `filtered_exit_mcap`, with its three fallbacks. */
  function Filtered(s: seq<real>, enter: real, low: real, high: real): real {
    var median := Median(s);
    var inner := Median(Band(s, median, low, high));
    if inner.Some? then inner.value
    else if median.Some? then median.value
    else if LastValid(s).Some? then LastValid(s).value
    else if enter > 0.0 then enter else 0.0
  }

  lemma {:induction false} NoValidNoLast(s: seq<real>)
    requires forall x :: x in s ==> !ValidMcap(x)
    ensures LastValid(s).None?
  {
    if s != [] { NoValidNoLast(s[..|s| - 1]); }
  }

  lemma SelfInBand(m: real, low: real, high: real)
    requires ValidMcap(m) && low <= 1.0 <= high
    ensures InBand(m, Some(m), low, high)
  {
    ScaleMono(low, 1.0, m);
    ScaleMono(1.0, high, m);
  }

  /** The first median is itself in a band that contains 1. */
  lemma MedianInBand(s: seq<real>, low: real, high: real)
    requires Median(s).Some? && low <= 1.0 <= high
    ensures Median(s).value in Band(s, Median(s), low, high)
    ensures ValidMcap(Median(s).value)
  {
    hide Median, InBand;
    MedianByRank(s, Median(s).value);
    SelfInBand(Median(s).value, low, high);
  }

  /** With any valid tick the answer is one of the valid samples; with none it is the entry mcap,
      never negative. So the "last raw tick" fallback never decides. */
  lemma FilteredIsSample(s: seq<real>, enter: real, low: real, high: real)
    ensures (exists x :: x in s && ValidMcap(x)) ==> Filtered(s, enter, low, high) in Valids(s)
    ensures !(exists x :: x in s && ValidMcap(x)) ==>
              Filtered(s, enter, low, high) == if enter > 0.0 then enter else 0.0
  {
    hide Median, Valids;
    var median := Median(s);
    MedianByRank(s, if median.Some? then median.value else 0.0);
    var b := Band(s, median, low, high);
    var inner := Median(b);
    MedianByRank(b, if inner.Some? then inner.value else 0.0);
    if median.None? { NoValidNoLast(s); }
  }

  /** With a band around 1 the plain-median fallback never decides either: whenever there is a
      valid tick the in-band median exists. */
  lemma InnerMedianDecides(s: seq<real>, enter: real, low: real, high: real)
    requires low <= 1.0 <= high && exists x :: x in s && ValidMcap(x)
    ensures var inner := Median(Band(s, Median(s), low, high));
            inner.Some? && Filtered(s, enter, low, high) == inner.value
  {
    hide Median;
    MedianByRank(s, 0.0);
    MedianInBand(s, low, high);
    MedianByRank(Band(s, Median(s), low, high), 0.0);
  }

  // ---- what the filter answers, by counting -------------------------------------

  /** How many samples are between 0 (excluded) and 200000 SOL and lie in `[lo, hi]`. */
  function Usable(s: seq<real>, lo: real, hi: real): nat {
    if s == [] then 0 else (if 0.0 < s[0] <= 200000.0 && lo <= s[0] <= hi then 1 else 0) + Usable(s[1..], lo, hi)
  }

  /** Among the usable samples in `[lo, hi]`, `m` is the upper median by rank: it is one of them, at most
      half are below it, and more than half are not above it. */
  predicate RankMedian(s: seq<real>, lo: real, hi: real, m: real) {
    && m in s && 0.0 < m <= 200000.0 && lo <= m <= hi
    && Usable(s, lo, hi) - Usable(s, m, hi) <= Usable(s, lo, hi) / 2 < Usable(s, lo, m)
  }

  lemma {:induction false} ValidCounts(s: seq<real>, x: real)
    ensures |Valids(s)| == Usable(s, 0.0, ABS_MAX)
    ensures 0.0 <= x <= ABS_MAX ==>
              UpTo(Valids(s), x) == Usable(s, 0.0, x) && Below(Valids(s), x) == Usable(s, 0.0, ABS_MAX) - Usable(s, x, ABS_MAX)
  {
    if s != [] { ValidCounts(s[1..], x); }
  }

  lemma {:induction false} BandCounts(s: seq<real>, m: real, low: real, high: real, lo: real, hi: real, x: real)
    requires m > 0.0 && lo == m * low && hi == m * high
    ensures var v := Valids(Band(s, Some(m), low, high));
            && |v| == Usable(s, lo, hi)
            && (lo <= x <= hi ==> UpTo(v, x) == Usable(s, lo, x) && Below(v, x) == Usable(s, lo, hi) - Usable(s, x, hi))
  {
    if s != [] {
      BandCounts(s[1..], m, low, high, lo, hi, x);
      var b := Band(s[1..], Some(m), low, high);
      assert ([s[0]] + b)[1..] == b;
      BandMeans(s[0], m, low, high, lo, hi);
      hide InBand;
    }
  }

  lemma BandMeans(x: real, m: real, low: real, high: real, lo: real, hi: real)
    requires m > 0.0 && lo == m * low && hi == m * high
    ensures InBand(x, Some(m), low, high) <==> 0.0 < x <= 200000.0 && lo <= x <= hi
  {
  }

  lemma SomeValid(s: seq<real>)
    ensures |Valids(s)| == 0 <==> forall x :: x in s ==> !ValidMcap(x)
  {
    if |Valids(s)| > 0 {
      var x := Valids(s)[0];
      assert x in Valids(s);
    }
    forall x | x in s && ValidMcap(x) ensures |Valids(s)| > 0 { assert x in Valids(s); }
  }

  lemma MedianOfValid(s: seq<real>, m: real)
    ensures Median(s) == Some(m) <==> RankMedian(s, 0.0, 200000.0, m)
    ensures Median(s).None? <==> Usable(s, 0.0, 200000.0) == 0
  {
    hide Median, Valids, Usable, Below, UpTo;
    MedianByRank(s, m);
    ValidCounts(s, m);
    SomeValid(s);
  }

  lemma MedianOfBand(s: seq<real>, m: real, low: real, high: real, lo: real, hi: real, r: real)
    requires 0.0 < m && lo == m * low && hi == m * high
    ensures var b := Band(s, Some(m), low, high);
            && (Median(b) == Some(r) <==> RankMedian(s, lo, hi, r))
            && (Median(b).None? <==> Usable(s, lo, hi) == 0)
  {
    hide Median, Valids, Usable, Below, UpTo, Band;
    var b := Band(s, Some(m), low, high);
    MedianByRank(b, r);
    BandCounts(s, m, low, high, lo, hi, r);
    SomeValid(b);
    BandMeans(r, m, low, high, lo, hi);
  }

  /** What the filter answers, by counting samples: with `m` the rank median of the usable samples, the rank
      median of those of them between `m * low` and `m * high`; `m` itself when none is there; and the entry
      mcap, never negative, when there is no usable sample. */
  lemma FilteredByRank(s: seq<real>, enter: real, low: real, high: real, m: real, r: real)
    ensures RankMedian(s, 0.0, 200000.0, m) && Usable(s, m * low, m * high) > 0 ==>
              (Filtered(s, enter, low, high) == r <==> RankMedian(s, m * low, m * high, r))
    ensures RankMedian(s, 0.0, 200000.0, m) && Usable(s, m * low, m * high) == 0 ==> Filtered(s, enter, low, high) == m
    ensures Usable(s, 0.0, 200000.0) == 0 ==> Filtered(s, enter, low, high) == if enter > 0.0 then enter else 0.0
  {
    hide Median, Usable, Band;
    MedianOfValid(s, m);
    FilteredIsSample(s, enter, low, high);
    if Usable(s, 0.0, 200000.0) == 0 {
      hide Filtered;
      MedianByRank(s, m);
    } else if RankMedian(s, 0.0, 200000.0, m) {
      MedianOfBand(s, m, low, high, m * low, m * high, r);
      MedianOfBand(s, m, low, high, m * low, m * high, Filtered(s, enter, low, high));
    }
  }

  lemma {:induction false} InWindow(s: seq<real>, lo: real, hi: real, m: real)
    requires m in s && 0.0 < m <= 200000.0 && lo <= m <= hi
    ensures Usable(s, lo, hi) > 0
  {
    if s[0] != m { InWindow(s[1..], lo, hi, m); }
  }

  /** With a band around 1 the second stage always decides: the answer is exactly the rank median of the
      usable samples in the band around the first median. */
  lemma BandDecides(s: seq<real>, enter: real, low: real, high: real, m: real, r: real)
    requires low <= 1.0 <= high && RankMedian(s, 0.0, 200000.0, m)
    ensures Filtered(s, enter, low, high) == r <==> RankMedian(s, m * low, m * high, r)
  {
    hide Filtered, Usable;
    AroundMedian(s, low, high, m, m * low, m * high);
    InWindow(s, m * low, m * high, m);
    FilteredByRank(s, enter, low, high, m, r);
  }

  lemma {:induction false} UsableUpdate(s: seq<real>, i: nat, y: real, lo: real, hi: real)
    requires i < |s|
    ensures Usable(s[i := y], lo, hi) ==
            Usable(s, lo, hi) - (if 0.0 < s[i] <= 200000.0 && lo <= s[i] <= hi then 1 else 0)
            + (if 0.0 < y <= 200000.0 && lo <= y <= hi then 1 else 0)
  {
    if i == 0 {
      assert s[0 := y][1..] == s[1..];
    } else {
      assert s[i := y][1..] == s[1..][i - 1 := y];
      UsableUpdate(s[1..], i - 1, y, lo, hi);
    }
  }

  /** An outlier counts for its side only: replacing a usable sample below the band by another one below it,
      or one above by another one above, leaves the answer as it was. */
  lemma OutlierValueIsIrrelevant(s: seq<real>, i: nat, y: real, enter: real, low: real, high: real, m: real)
    requires low <= 1.0 <= high && RankMedian(s, 0.0, 200000.0, m) && i < |s|
    requires 0.0 < s[i] <= 200000.0 && 0.0 < y <= 200000.0
    requires (s[i] < m * low && y < m * low) || (s[i] > m * high && y > m * high)
    ensures Filtered(s[i := y], enter, low, high) == Filtered(s, enter, low, high)
  {
    hide *;
    var r, s' := Filtered(s, enter, low, high), s[i := y];
    var lo, hi := m * low, m * high;
    AroundMedian(s, low, high, m, lo, hi);
    BandDecides(s, enter, low, high, m, r);
    OutlierMoves(s, i, y, lo, hi, m, r);
    BandDecides(s', enter, low, high, m, r);
  }

  lemma AroundMedian(s: seq<real>, low: real, high: real, m: real, lo: real, hi: real)
    requires low <= 1.0 <= high && RankMedian(s, 0.0, 200000.0, m) && lo == m * low && hi == m * high
    ensures lo <= m <= hi
  {
    Ordered(low, 1.0, m, lo, m);
    Ordered(1.0, high, m, m, hi);
  }

  lemma Ordered(a: real, b: real, k: real, ka: real, kb: real)
    requires a <= b && k >= 0.0 && ka == k * a && kb == k * b
    ensures ka <= kb
  {
    ScaleMono(a, b, k);
  }

  lemma OutlierMoves(s: seq<real>, i: nat, y: real, lo: real, hi: real, m: real, r: real)
    requires RankMedian(s, 0.0, 200000.0, m) && RankMedian(s, lo, hi, r) && i < |s| && lo <= m <= hi
    requires 0.0 < s[i] <= 200000.0 && 0.0 < y <= 200000.0
    requires (s[i] < lo && y < lo) || (s[i] > hi && y > hi)
    ensures RankMedian(s[i := y], 0.0, 200000.0, m) && RankMedian(s[i := y], lo, hi, r)
  {
    hide Usable;
    SameMedian(s, i, y, 0.0, 200000.0, m);
    SameMedian(s, i, y, lo, hi, r);
  }

  /** A rank median stays one when a sample on one side of it becomes another on that side, inside the window if
      it was inside and outside if it was outside. */
  lemma SameMedian(s: seq<real>, i: nat, y: real, lo: real, hi: real, m: real)
    requires i < |s| && 0.0 < s[i] <= 200000.0 && 0.0 < y <= 200000.0 && RankMedian(s, lo, hi, m)
    requires (s[i] < m && y < m) || (s[i] > m && y > m)
    requires lo <= s[i] <= hi <==> lo <= y <= hi
    ensures RankMedian(s[i := y], lo, hi, m)
  {
    var j :| 0 <= j < |s| && s[j] == m;
    assert s[i := y][j] == m;
    UsableUpdate(s, i, y, lo, hi);
    UsableUpdate(s, i, y, m, hi);
    UsableUpdate(s, i, y, lo, m);
  }

  // ---- robustness -------------------------------------------------------------

  /** A strict majority inside `[lo, hi]` pins the median there. */
  lemma MajorityPinsMedian(v: seq<real>, m: real, lo: real, hi: real)
    requires lo <= hi && IsMedian(v, m) && 2 * Within(v, lo, hi) > |v|
    ensures lo <= m <= hi
  {
    Counts(v, lo, hi);
    if m < lo { RankMonotone(v, m, lo); }
    if hi < m { RankMonotone(v, hi, m); }
  }

  lemma {:induction false} BandKeepsHonest(s: seq<real>, median: Option<real>, low: real, high: real, lo: real, hi: real)
    requires forall x :: lo <= x <= hi ==> InBand(x, median, low, high)
    ensures var b := Band(s, median, low, high);
            Within(Valids(b), lo, hi) == Within(s, lo, hi) && |Valids(b)| <= |Valids(s)|
  {
    if s != [] {
      BandKeepsHonest(s[1..], median, low, high, lo, hi);
      var b := Band(s[1..], median, low, high);
      assert ([s[0]] + b)[1..] == b;
    }
  }

  lemma {:induction false} ValidsKeepHonest(s: seq<real>, lo: real, hi: real)
    requires forall x :: lo <= x <= hi ==> ValidMcap(x)
    ensures Within(Valids(s), lo, hi) == Within(s, lo, hi)
  {
    if s != [] { ValidsKeepHonest(s[1..], lo, hi); }
  }

  /** Filter robustness: when a strict majority of the valid ticks lies in `[lo, hi]` and the band
      is wide enough for that interval, the filtered mcap lies in `[lo, hi]` whatever the other
      ticks are. */
  lemma RobustToMinority(s: seq<real>, enter: real, low: real, high: real, lo: real, hi: real)
    requires 0.0 < lo <= hi <= ABS_MAX && 2 * Within(s, lo, hi) > |Valids(s)|
    requires low * hi <= lo && hi <= high * lo
    ensures lo <= Filtered(s, enter, low, high) <= hi
  {
    var v, median := Valids(s), Median(s);
    ValidsKeepHonest(s, lo, hi);
    Counts(v, lo, hi);
    MedianByRank(s, if median.Some? then median.value else 0.0);
    if median.None? { assert false; }
    var m := median.value;
    MajorityPinsMedian(v, m, lo, hi);
    BandCovers(m, low, high, lo, hi);
    var b := Band(s, median, low, high);
    BandKeepsHonest(s, median, low, high, lo, hi);
    Counts(Valids(b), lo, hi);
    var inner := Median(b);
    MedianByRank(b, if inner.Some? then inner.value else 0.0);
    if inner.None? { assert false; }
    MajorityPinsMedian(Valids(b), inner.value, lo, hi);
  }

  lemma ScaleMono(a: real, b: real, k: real)
    requires a <= b && k >= 0.0
    ensures a * k <= b * k && k * a <= k * b
  {
  }

  lemma BandCovers(m: real, low: real, high: real, lo: real, hi: real)
    requires 0.0 < lo <= m <= hi <= ABS_MAX && low * hi <= lo && hi <= high * lo
    ensures forall x :: lo <= x <= hi ==> InBand(x, Some(m), low, high)
  {
    if high <= 0.0 { ScaleMono(high, 0.0, lo); }
    ScaleMono(lo, m, high);
    assert hi <= m * high;
    if low <= 0.0 { ScaleMono(low, 0.0, m); } else { ScaleMono(m, hi, low); }
    assert m * low <= lo;
  }

  /** The same for a named set of honest ticks: the answer lies between the smallest and the
      largest of them. */
  lemma HonestMajority(s: seq<real>, honest: set<nat>, enter: real, low: real, high: real, lo: real, hi: real)
    requires forall i :: i in honest ==> i < |s| && lo <= s[i] <= hi
    requires 0.0 < lo <= hi <= ABS_MAX && 2 * |honest| > |s|
    requires low * hi <= lo && hi <= high * lo
    ensures lo <= Filtered(s, enter, low, high) <= hi
  {
    HonestCounted(s, honest, lo, hi);
    RobustToMinority(s, enter, low, high, lo, hi);
  }

  lemma {:induction false} HonestCounted(s: seq<real>, honest: set<nat>, lo: real, hi: real)
    requires forall i :: i in honest ==> i < |s| && lo <= s[i] <= hi
    ensures |honest| <= Within(s, lo, hi)
  {
    if s == [] {
      assert honest == {};
    } else {
      var n := |s| - 1;
      HonestCounted(s[..n], honest - {n}, lo, hi);
      WithinSnoc(s[..n], s[n], lo, hi);
      assert s[..n] + [s[n]] == s;
      assert |honest - {n}| >= |honest| - 1;
    }
  }

  lemma {:induction false} WithinSnoc(s: seq<real>, x: real, lo: real, hi: real)
    ensures Within(s + [x], lo, hi) == Within(s, lo, hi) + if lo <= x <= hi then 1 else 0
  {
    if s != [] {
      assert (s + [x])[1..] == s[1..] + [x];
      WithinSnoc(s[1..], x, lo, hi);
    }
  }

  /** The majority must be strict: at an exact half the filter follows the outliers. */
  lemma HalfIsNotEnough()
    ensures Filtered([100.0, 900.0], 100.0, 0.02, 50.0) == 900.0
  {
    var s := [100.0, 900.0];
    assert Valids(s[1..]) == [900.0] by { assert s[1..] == [900.0]; assert s[1..][1..] == []; }
    assert Valids(s) == s;
    assert IsMedian(s, 900.0) by {
      assert s[1..] == [900.0] && s[1..][1..] == [];
      assert 900.0 == s[1];
    }
    MedianByRank(s, 900.0);
    var b := Band(s, Some(900.0), 0.02, 50.0);
    assert b == s by { assert s[1..] == [900.0] && s[1..][1..] == []; assert Band(s[1..], Some(900.0), 0.02, 50.0) == [900.0]; }
  }
}
