/** Small shared vocabulary. */
module Common {

  datatype Option<+T> = None | Some(value: T)

  const U64_MAX: nat := 0xFFFF_FFFF_FFFF_FFFF

  function SatSub(a: nat, b: nat): nat { if a < b then 0 else a - b }

  function MaxN(a: nat, b: nat): nat { if a < b then b else a }

  /** One for true, zero for false. */
  function AsNat(b: bool): nat { if b then 1 else 0 }

  /** The newest `n` elements. */
  function Last<T>(s: seq<T>, n: nat): seq<T> { if |s| <= n then s else s[|s| - n..] }

  predicate Distinct<T(==)>(s: seq<T>) { forall i, j :: 0 <= i < j < |s| ==> s[i] != s[j] }

  /** `n` different names. */
  function Names(n: nat): seq<string> { seq(n, i requires 0 <= i < n => seq(i, _ => 'x')) }

  lemma NamesDiffer(n: nat)
    ensures Distinct(Names(n))
  {
    forall i, j | 0 <= i < j < n ensures Names(n)[i] != Names(n)[j] {
      assert |Names(n)[i]| == i && |Names(n)[j]| == j;
    }
  }
}
