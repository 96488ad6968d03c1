/**
 Bounded signature dedup (src/feed/metrics.rs). The reference is a sliding window over the signatures
 accepted as new; the classes keep a queue and a set or map and evict the oldest entry.
 */
module Dedup {

  import opened Common

  type Sig = string
  type Feed = string

  function Width(capacity: nat): nat { if capacity == 0 then 1 else capacity }

  /** The signatures accepted as new over a history of observations, oldest first. */
  function Accepted(capacity: nat, h: seq<Sig>): seq<Sig> {
    if h == [] then []
    else
      var before, s := Accepted(capacity, h[..|h| - 1]), h[|h| - 1];
      if s in Last(before, Width(capacity)) then before else before + [s]
  }

  /** The signatures remembered after a history. */
  function Window(capacity: nat, h: seq<Sig>): seq<Sig> { Last(Accepted(capacity, h), Width(capacity)) }

  lemma LastSnoc<T>(s: seq<T>, x: T, n: nat)
    requires n > 0
    ensures Last(s + [x], n) == (if |s| >= n then Last(s, n)[1..] else Last(s, n)) + [x]
  {
  }

  lemma AmongLast<T>(s: seq<T>, n: nat, i: nat)
    requires i < |s| <= i + n
    ensures s[i] in Last(s, n)
  {
    var off := |s| - |Last(s, n)|;
    assert Last(s, n)[i - off] == s[i];
  }

  lemma InLast(s: seq<Sig>, n: nat, x: Sig)
    ensures x in Last(s, n) <==> exists i :: 0 <= i < |s| && |s| - n <= i && s[i] == x
  {
    var l := Last(s, n);
    if x in l {
      var j :| 0 <= j < |l| && l[j] == x;
      var i := |s| - |l| + j;
      assert 0 <= i < |s| && |s| - n <= i && s[i] == x;
    }
    if exists i :: 0 <= i < |s| && |s| - n <= i && s[i] == x {
      var i :| 0 <= i < |s| && |s| - n <= i && s[i] == x;
      AmongLast(s, n, i);
    }
  }

  /** A signature is a duplicate exactly when it is one of the last max(capacity, 1) accepted ones; any other is
      accepted, a duplicate is not. */
  lemma AcceptanceIff(capacity: nat, h: seq<Sig>, s: Sig)
    ensures var a, n := Accepted(capacity, h), if capacity == 0 then 1 else capacity;
            var dup := exists i :: 0 <= i < |a| && |a| - n <= i && a[i] == s;
            (s in Window(capacity, h) <==> dup) && Accepted(capacity, h + [s]) == if dup then a else a + [s]
  {
    assert (h + [s])[..|h|] == h;
    InLast(Accepted(capacity, h), Width(capacity), s);
    hide Last;
  }

  /** Two acceptances of one signature are more than a window apart. */
  lemma {:induction false} AcceptedAreSpaced(capacity: nat, h: seq<Sig>, i: nat, j: nat)
    requires i < j < |Accepted(capacity, h)| && Accepted(capacity, h)[i] == Accepted(capacity, h)[j]
    ensures j - i > Width(capacity)
  {
    var n := |h| - 1;
    var before, w := Accepted(capacity, h[..n]), Width(capacity);
    if j < |before| {
      AcceptedAreSpaced(capacity, h[..n], i, j);
    } else if i + w >= j {
      AmongLast(before, w, i);
    }
  }

  /** Nothing is remembered twice. */
  lemma WindowUnique(capacity: nat, h: seq<Sig>)
    ensures Distinct(Window(capacity, h)) && |Window(capacity, h)| <= Width(capacity)
  {
    var a, w := Accepted(capacity, h), Window(capacity, h);
    var off := |a| - |w|;
    forall i, j | 0 <= i < j < |w| ensures w[i] != w[j] {
      if w[i] == w[j] { AcceptedAreSpaced(capacity, h, off + i, off + j); }
    }
  }

  /** Seeing a remembered signature again changes nothing: its age is that of its first acceptance. */
  lemma ReobservingDoesNotRefresh(capacity: nat, h: seq<Sig>, s: Sig)
    requires s in Window(capacity, h)
    ensures Accepted(capacity, h + [s]) == Accepted(capacity, h)
  {
    assert (h + [s])[..|h|] == h;
  }

  /** So the window is first-in first-out, not least-recently-used: a signature seen one step ago is
      forgotten when two others have been accepted since it was. */
  lemma RecentlySeenIsForgotten(a: Sig, b: Sig, c: Sig)
    requires a != b && b != c && a != c
    ensures Window(2, [a, b, a, c]) == [b, c]
  {
    var h := [a, b, a, c];
    assert h[..3] == [a, b, a] && [a, b, a][..2] == [a, b] && [a, b][..1] == [a] && [a][..0] == [];
    assert Accepted(2, [a]) == [a];
    assert Accepted(2, [a, b]) == [a, b];
    assert Accepted(2, [a, b, a]) == [a, b];
    assert Accepted(2, h) == [a, b, c];
  }

  // ---- against a least-recently-used cache ---------------------------------------------------

  function Removed(s: seq<Sig>, x: Sig): (r: seq<Sig>)
    ensures x !in s ==> r == s
    ensures x !in r
  {
    if s == [] then [] else Removed(s[..|s| - 1], x) + if s[|s| - 1] == x then [] else [s[|s| - 1]]
  }

  /** What a least-recently-used cache of the same size remembers: each observation moves to the end. */
  function Lru(capacity: nat, h: seq<Sig>): seq<Sig> {
    if h == [] then []
    else var s := h[|h| - 1]; Last(Removed(Lru(capacity, h[..|h| - 1]), s) + [s], Width(capacity))
  }

  lemma {:induction false} SizeOneIsLru(capacity: nat, h: seq<Sig>)
    requires Width(capacity) == 1
    ensures Window(capacity, h) == Lru(capacity, h)
  {
    if h != [] {
      SizeOneIsLru(capacity, h[..|h| - 1]);
      hide Removed;
    }
  }

  lemma Observed(capacity: nat, h: seq<Sig>, s: Sig)
    ensures Accepted(capacity, h + [s]) == if s in Window(capacity, h) then Accepted(capacity, h) else Accepted(capacity, h) + [s]
    ensures Lru(capacity, h + [s]) == Last(Removed(Lru(capacity, h), s) + [s], Width(capacity))
  {
    hide Removed, Last;
    assert (h + [s])[..|h|] == h;
  }

  lemma {:induction false} FreshFillsBoth(capacity: nat, d: seq<Sig>)
    requires Distinct(d) && |d| <= Width(capacity)
    ensures Accepted(capacity, d) == d && Lru(capacity, d) == d
  {
    if d != [] {
      hide Accepted, Lru, Removed;
      var n := |d| - 1;
      assert d[..n] + [d[n]] == d && d[n] !in d[..n];
      FreshFillsBoth(capacity, d[..n]);
      Observed(capacity, d[..n], d[n]);
    }
  }

  lemma RemovedSnoc(s: seq<Sig>, y: Sig, x: Sig)
    ensures Removed(s + [y], x) == Removed(s, x) + if y == x then [] else [y]
  {
    assert (s + [y])[..|s|] == s;
  }

  lemma RemovedOne(x: Sig)
    ensures Removed([x], x) == []
  {
    assert [x][..0] == [];
  }

  lemma {:induction false} FrontRemoved(x: Sig, rest: seq<Sig>)
    requires x !in rest
    ensures Removed([x] + rest, x) == rest
  {
    hide Removed;
    if rest == [] {
      RemovedOne(x);
      assert [x] + rest == [x];
    } else {
      var a, y := rest[..|rest| - 1], rest[|rest| - 1];
      assert rest == a + [y] && y != x;
      FrontRemoved(x, a);
      RemovedSnoc([x] + a, y, x);
      assert [x] + rest == [x] + a + [y];
    }
  }

  /** Fill the cache, touch the oldest entry, observe one more: the program forgets the entry it has just
      seen, a least-recently-used cache keeps it. */
  lemma OldestIsForgotten(capacity: nat, d: seq<Sig>, x: Sig)
    requires Distinct(d) && |d| == Width(capacity) >= 2 && x !in d
    ensures d[0] !in Window(capacity, d + [d[0]] + [x]) && d[0] in Lru(capacity, d + [d[0]] + [x])
  {
    hide Accepted, Lru, Removed;
    FreshFillsBoth(capacity, d);
    assert [d[0]] + d[1..] == d;
    FrontRemoved(d[0], d[1..]);
    Observed(capacity, d, d[0]);
    Observed(capacity, d + [d[0]], x);
    assert d[0] in Window(capacity, d);
    NewestTwo(d[1..], d[0], x);
    hide Distinct;
    assert Last(d + [x], |d|) == d[1..] + [x];
  }

  lemma NewestTwo(s: seq<Sig>, y: Sig, x: Sig)
    requires s != [] && x !in s && x != y
    ensures Removed(s + [y], x) == s + [y]
    ensures y in Last(s + [y] + [x], |s| + 1)
  {
    hide Removed;
    assert Last(s + [y] + [x], |s| + 1)[|s| - 1] == y;
  }

  /** The cache is the least-recently-used cache it is documented as, for its contents and for its order,
      exactly when it holds a single signature. */
  lemma LruIffSizeOne(capacity: nat)
    ensures (forall h :: Window(capacity, h) == Lru(capacity, h)) <==> Width(capacity) <= 1
    ensures (forall h, s :: s in Window(capacity, h) <==> s in Lru(capacity, h)) <==> Width(capacity) <= 1
  {
    hide Window, Lru;
    if Width(capacity) <= 1 {
      forall h ensures Window(capacity, h) == Lru(capacity, h) { SizeOneIsLru(capacity, h); }
    } else {
      var names, w := Names(Width(capacity) + 1), Width(capacity);
      NamesDiffer(w + 1);
      var d, x := names[..w], names[w];
      OldestIsForgotten(capacity, d, x);
      var h := d + [d[0]] + [x];
      assert !(d[0] in Window(capacity, h) <==> d[0] in Lru(capacity, h));
      assert Window(capacity, h) != Lru(capacity, h);
    }
  }

  /** Duplicate delivery on one feed. */
  class SelfDedup {
    const capacity: nat
    var order: seq<Sig>
    var seen: set<Sig>
    /** Every signature observed so far. */
    ghost var history: seq<Sig>

    ghost predicate Valid()
      reads this
    {
      && order == Window(capacity, history) && Distinct(order)
      && (forall s :: s in seen ==> s in order) && (forall s :: s in order ==> s in seen)
    }

    constructor (capacity: nat)
      ensures Valid() && history == [] && this.capacity == capacity
    {
      this.capacity := capacity;
      order := [];
      seen := {};
      history := [];
    }

    /** True exactly when the signature is among the last max(capacity, 1) accepted ones. */
    method CheckAndRemember(s: Sig) returns (dup: bool)
      requires Valid()
      modifies this
      ensures Valid() && history == old(history) + [s]
      ensures dup <==> s in Window(capacity, old(history))
    {
      WindowUnique(capacity, history + [s]);
      assert (history + [s])[..|history|] == history;
      LastSnoc(Accepted(capacity, history), s, Width(capacity));
      history := history + [s];
      if s in seen {
        return true;
      }
      if |order| >= capacity && |order| > 0 {
        seen := seen - {order[0]};
        order := order[1..];
      }
      order := order + [s];
      seen := seen + {s};
      return false;
    }
  }

  // ---- across feeds --------------------------------------------------------------------------

  function Sigs(claims: seq<(Sig, Feed)>): (r: seq<Sig>)
    ensures |r| == |claims|
  {
    if claims == [] then [] else Sigs(claims[..|claims| - 1]) + [claims[|claims| - 1].0]
  }

  lemma {:induction false} SigAt(claims: seq<(Sig, Feed)>, i: nat)
    requires i < |claims|
    ensures Sigs(claims)[i] == claims[i].0
  {
    if i < |claims| - 1 { SigAt(claims[..|claims| - 1], i); }
  }

  lemma SigsSnoc(claims: seq<(Sig, Feed)>, c: (Sig, Feed))
    ensures Sigs(claims + [c]) == Sigs(claims) + [c.0]
  {
    assert (claims + [c])[..|claims|] == claims;
  }

  lemma SigsLast(claims: seq<(Sig, Feed)>, n: nat)
    ensures Sigs(Last(claims, n)) == Last(Sigs(claims), n)
  {
    var l := Last(claims, n);
    forall i | 0 <= i < |l| ensures Sigs(l)[i] == Last(Sigs(claims), n)[i] {
      SigAt(l, i);
      SigAt(claims, |claims| - |l| + i);
    }
  }

  /** Which feed first claimed each accepted signature. */
  function Claims(capacity: nat, h: seq<(Sig, Feed)>): seq<(Sig, Feed)> {
    if h == [] then []
    else
      var before, c := Claims(capacity, h[..|h| - 1]), h[|h| - 1];
      if c.0 in Sigs(Last(before, Width(capacity))) then before else before + [c]
  }

  /** Claims follow the same window as one feed alone. */
  lemma {:induction false} ClaimsAreAccepted(capacity: nat, h: seq<(Sig, Feed)>)
    ensures Sigs(Claims(capacity, h)) == Accepted(capacity, Sigs(h))
    ensures Sigs(Last(Claims(capacity, h), Width(capacity))) == Window(capacity, Sigs(h))
  {
    hide Sigs, Last;
    SigsLast(Claims(capacity, h), Width(capacity));
    if h != [] {
      var n := |h| - 1;
      ClaimsAreAccepted(capacity, h[..n]);
      SigsSnoc(h[..n], h[n]);
      SigsSnoc(Claims(capacity, h[..n]), h[n]);
      assert h == h[..n] + [h[n]];
      assert Sigs(h)[..n] == Sigs(h[..n]);
    } else {
      NoSigs();
    }
  }

  lemma NoSigs()
    ensures Sigs([]) == []
  {
  }

  function Remembered(capacity: nat, h: seq<(Sig, Feed)>): seq<(Sig, Feed)> { Last(Claims(capacity, h), Width(capacity)) }

  /** A remembered claim of the signature belongs to another feed. */
  predicate ClaimedElsewhere(claims: seq<(Sig, Feed)>, s: Sig, feed: Feed) {
    exists i :: 0 <= i < |claims| && claims[i].0 == s && claims[i].1 != feed
  }

  /** The map holds exactly the claims. */
  predicate Owns(owner: map<Sig, Feed>, claims: seq<(Sig, Feed)>) {
    && (forall s :: s in owner ==> (s, owner[s]) in claims)
    && (forall i :: 0 <= i < |claims| ==> claims[i].0 in owner && owner[claims[i].0] == claims[i].1)
  }

  lemma OwnerDecides(owner: map<Sig, Feed>, claims: seq<(Sig, Feed)>, s: Sig, feed: Feed)
    requires Owns(owner, claims)
    ensures ClaimedElsewhere(claims, s, feed) <==> s in owner && owner[s] != feed
    ensures s in owner <==> s in Sigs(claims)
  {
    if s in owner {
      var i :| 0 <= i < |claims| && claims[i] == (s, owner[s]);
      SigAt(claims, i);
    }
    if s in Sigs(claims) {
      var i :| 0 <= i < |claims| && Sigs(claims)[i] == s;
      SigAt(claims, i);
    }
  }

  lemma EvictKeeps(owner: map<Sig, Feed>, claims: seq<(Sig, Feed)>)
    requires Owns(owner, claims) && claims != [] && Distinct(Sigs(claims))
    ensures Owns(owner - {claims[0].0}, claims[1..])
  {
    var o, cs := owner - {claims[0].0}, claims[1..];
    forall i | 0 <= i < |cs| ensures cs[i].0 in o && o[cs[i].0] == cs[i].1 {
      SigAt(claims, i + 1);
      SigAt(claims, 0);
    }
    forall s | s in o ensures (s, o[s]) in cs {
      var i :| 0 <= i < |claims| && claims[i] == (s, owner[s]);
      assert cs[i - 1] == claims[i];
    }
  }

  lemma ClaimKeeps(owner: map<Sig, Feed>, claims: seq<(Sig, Feed)>, s: Sig, feed: Feed)
    requires Owns(owner, claims) && s !in owner
    ensures Owns(owner[s := feed], claims + [(s, feed)])
  {
    var cs := claims + [(s, feed)];
    assert cs[|claims|] == (s, feed);
    forall t | t in owner ensures (t, owner[t]) in cs {
      var i :| 0 <= i < |claims| && claims[i] == (t, owner[t]);
      assert cs[i] == claims[i];
    }
  }

  class SignatureDedup {
    const capacity: nat
    var order: seq<Sig>
    var owner: map<Sig, Feed>
    ghost var history: seq<(Sig, Feed)>

    ghost predicate Valid()
      reads this
    {
      order == Sigs(Remembered(capacity, history)) && Distinct(order) && Owns(owner, Remembered(capacity, history))
    }

    constructor (capacity: nat)
      ensures Valid() && history == [] && this.capacity == capacity
    {
      this.capacity := capacity;
      order := [];
      owner := map[];
      history := [];
    }

    /** True exactly when another feed owns the signature; the first feed to claim it keeps it. */
    method Observe(s: Sig, feed: Feed) returns (crossed: bool)
      requires Valid()
      modifies this
      ensures Valid() && history == old(history) + [(s, feed)]
      ensures crossed <==> ClaimedElsewhere(Remembered(capacity, old(history)), s, feed)
    {
      hide Sigs, Owns, Distinct, ClaimedElsewhere;
      ghost var h, rem := history + [(s, feed)], Remembered(capacity, history);
      WindowUnique(capacity, Sigs(h));
      ClaimsAreAccepted(capacity, h);
      assert h[..|history|] == history;
      LastSnoc(Claims(capacity, history), (s, feed), Width(capacity));
      OwnerDecides(owner, rem, s, feed);
      history := h;
      if s in owner {
        return owner[s] != feed;
      }
      if |order| >= capacity && |order| > 0 {
        SigAt(rem, 0);
        SigsTail(rem);
        EvictKeeps(owner, rem);
        owner := owner - {order[0]};
        order := order[1..];
        rem := rem[1..];
      }
      ClaimKeeps(owner, rem, s, feed);
      SigsSnoc(rem, (s, feed));
      order := order + [s];
      owner := owner[s := feed];
      return false;
    }
  }

  lemma SigsTail(claims: seq<(Sig, Feed)>)
    requires claims != []
    ensures Sigs(claims[1..]) == Sigs(claims)[1..]
  {
    forall i | 0 <= i < |claims| - 1 ensures Sigs(claims[1..])[i] == Sigs(claims)[i + 1] {
      SigAt(claims[1..], i);
      SigAt(claims, i + 1);
    }
  }
}
