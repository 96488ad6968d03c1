/**
 Admission to the fresh watchlist (src/pipeline/fresh_watchlist.rs): a set behind a lock and an atomic
 counter that is read inside the lock but changed outside it. Each atomic section is one step; steps of
 any number of callers and poll tasks interleave freely.
 */
module Watchlist {

  import opened Common

  type Mint = string

  /** `inserting`: callers between the locked insert and the increment. `polling`: spawned tasks.
      `releasing`: tasks between the locked removal and the decrement. */
  datatype Watch = Watch(
    active: set<Mint>, running: int, inserting: multiset<Mint>, polling: multiset<Mint>, releasing: multiset<Mint>)

  const START := Watch({}, 0, multiset{}, multiset{}, multiset{})

  datatype Admission = Admitted | Duplicate | CapFull

  datatype Step =
    | Admit(mint: Mint)
    | Increment(mint: Mint)
    | Remove(mint: Mint)
    | Decrement(mint: Mint)

  function Verdict(w: Watch, max: nat, m: Mint): Admission {
    if m in w.active then Duplicate else if w.running >= max then CapFull else Admitted
  }

  /** At most `c` callers are past the lock and not yet done. */
  predicate Enabled(c: nat, w: Watch, s: Step) {
    match s
    case Admit(_) => |w.inserting| < c
    case Increment(m) => m in w.inserting
    case Remove(m) => m in w.polling
    case Decrement(m) => m in w.releasing
  }

  function Next(max: nat, c: nat, w: Watch, s: Step): Watch {
    if !Enabled(c, w, s) then w
    else
      match s
      case Admit(m) =>
        if Verdict(w, max, m) != Admitted then w
        else w.(active := w.active + {m}, inserting := w.inserting + multiset{m})
      case Increment(m) =>
        w.(running := w.running + 1, inserting := w.inserting - multiset{m}, polling := w.polling + multiset{m})
      case Remove(m) =>
        w.(active := w.active - {m}, polling := w.polling - multiset{m}, releasing := w.releasing + multiset{m})
      case Decrement(m) => w.(running := w.running - 1, releasing := w.releasing - multiset{m})
  }

  function Run(max: nat, c: nat, ss: seq<Step>): Watch {
    if ss == [] then START else Next(max, c, Run(max, c, ss[..|ss| - 1]), ss[|ss| - 1])
  }

  // ---- the shared object ------------------------------------------------------------------------

  /** The two shared cells; the ghost fields say which threads are between steps. */
  class FreshWatchlistManager {
    const maxConcurrent: nat
    var active: set<Mint>
    var running: int
    ghost var inserting: multiset<Mint>
    ghost var polling: multiset<Mint>
    ghost var releasing: multiset<Mint>

    ghost function State(): Watch
      reads this
    {
      Watch(active, running, inserting, polling, releasing)
    }

    constructor (maxConcurrent: nat)
      ensures State() == START && this.maxConcurrent == maxConcurrent
    {
      this.maxConcurrent := maxConcurrent;
      active, running := {}, 0;
      inserting, polling, releasing := multiset{}, multiset{}, multiset{};
    }

    /** The locked section of `try_add`. */
    method TryAdmit(m: Mint, ghost c: nat) returns (v: Admission)
      requires Enabled(c, State(), Admit(m))
      modifies this`active, this`inserting
      ensures v == Verdict(old(State()), maxConcurrent, m) && State() == Next(maxConcurrent, c, old(State()), Admit(m))
      ensures v.Duplicate? <==> m in old(active)
      ensures v.CapFull? <==> m !in old(active) && running >= maxConcurrent
      ensures active == if v.Admitted? then old(active) + {m} else old(active)
    {
      if m in active {
        return Duplicate;
      }
      if running >= maxConcurrent {
        return CapFull;
      }
      active := active + {m};
      inserting := inserting + multiset{m};
      return Admitted;
    }

    /** The increment after it, and the start of the poll task. */
    method NoteRunning(m: Mint, ghost c: nat)
      requires Enabled(c, State(), Increment(m))
      modifies this`running, this`inserting, this`polling
      ensures State() == Next(maxConcurrent, c, old(State()), Increment(m))
    {
      running := running + 1;
      inserting := inserting - multiset{m};
      polling := polling + multiset{m};
    }

    /** The locked removal when a poll task ends. */
    method RemoveActive(m: Mint, ghost c: nat)
      requires Enabled(c, State(), Remove(m))
      modifies this`active, this`polling, this`releasing
      ensures State() == Next(maxConcurrent, c, old(State()), Remove(m))
    {
      active := active - {m};
      polling := polling - multiset{m};
      releasing := releasing + multiset{m};
    }

    /** The decrement after it. */
    method NoteDone(m: Mint, ghost c: nat)
      requires Enabled(c, State(), Decrement(m))
      modifies this`running, this`releasing
      ensures State() == Next(maxConcurrent, c, old(State()), Decrement(m))
    {
      running := running - 1;
      releasing := releasing - multiset{m};
    }
  }

  // ---- what every interleaving keeps ---------------------------------------------------------------

  ghost predicate Inv(max: nat, c: nat, w: Watch) {
    && w.inserting + w.polling == multiset(w.active)
    && w.running == |w.polling| + |w.releasing|
    && |w.inserting| <= c
    && w.running + |w.inserting| <= max + c - 1
  }

  lemma StepKeeps(max: nat, c: nat, w: Watch, s: Step)
    requires c >= 1 && Inv(max, c, w)
    ensures Inv(max, c, Next(max, c, w, s))
  {
    var w' := Next(max, c, w, s);
    if Enabled(c, w, s) {
      match s
      case Admit(m) =>
        if m !in w.active { assert multiset(w.active + {m}) == multiset(w.active) + multiset{m}; }
      case Increment(m) =>
        assert w'.inserting + w'.polling == w.inserting + w.polling;
      case Remove(m) =>
        OnlyOnce(w, m);
        DropOne(w.active, m);
        assert w'.inserting + w'.polling == w.inserting + w.polling - multiset{m};
      case Decrement(m) =>
    }
  }

  lemma DropOne(s: set<Mint>, m: Mint)
    requires m in s
    ensures multiset(s - {m}) == multiset(s) - multiset{m}
  {
  }

  lemma OnlyOnce(w: Watch, m: Mint)
    requires w.inserting + w.polling == multiset(w.active) && m in w.polling
    ensures m in w.active && w.polling[m] == 1 && w.inserting[m] == 0
  {
    assert (w.inserting + w.polling)[m] == multiset(w.active)[m];
  }

  lemma {:induction false} EveryRunKeeps(max: nat, c: nat, ss: seq<Step>)
    requires c >= 1
    ensures Inv(max, c, Run(max, c, ss))
  {
    if ss != [] {
      EveryRunKeeps(max, c, ss[..|ss| - 1]);
      StepKeeps(max, c, Run(max, c, ss[..|ss| - 1]), ss[|ss| - 1]);
    }
  }

  /** In every interleaving of at most `c` simultaneous callers: the counter is the active mints, less the
      callers that have not counted themselves yet, plus the tasks that have not signed off; it is never
      negative; no mint has two live tasks; and it exceeds the cap by at most c - 1. */
  lemma CounterTracksActive(max: nat, c: nat, ss: seq<Step>, m: Mint)
    requires c >= 1
    ensures var w := Run(max, c, ss);
            && w.running == |w.active| - |w.inserting| + |w.releasing|
            && 0 <= w.running <= max + c - 1
            && w.polling[m] + w.inserting[m] <= 1
            && (m in w.releasing ==> w.running >= 1)
  {
    EveryRunKeeps(max, c, ss);
    var w := Run(max, c, ss);
    hide Run;
    assert |w.inserting + w.polling| == |multiset(w.active)| == |w.active|;
    assert (w.inserting + w.polling)[m] == multiset(w.active)[m];
    if m in w.releasing { assert |w.releasing - multiset{m}| == |w.releasing| - 1; }
  }

  /** One caller at a time never exceeds the cap. */
  lemma SerialCallersRespectCap(max: nat, ss: seq<Step>)
    ensures Run(max, 1, ss).running <= max
  {
    CounterTracksActive(max, 1, ss, "");
  }

  // ---- the bound is attained ---------------------------------------------------------------------

  lemma RunSnoc(max: nat, c: nat, ss: seq<Step>, s: Step)
    ensures Run(max, c, ss + [s]) == Next(max, c, Run(max, c, ss), s)
  {
    assert (ss + [s])[..|ss|] == ss;
  }

  /** The first `n` of the mints have passed the lock, and the first `b` of those have been counted. */
  predicate Waiting(w: Watch, b: nat, n: nat, a: seq<Mint>)
    requires b <= n <= |a|
  {
    w.running == b && w.inserting == multiset(a[b..n]) && forall m :: m in w.active ==> m in a[..n]
  }

  lemma OneMoreWaits(max: nat, c: nat, w: Watch, b: nat, n: nat, a: seq<Mint>)
    requires b <= n < |a| && b < max && n - b < c && Distinct(a) && Waiting(w, b, n, a)
    ensures Waiting(Next(max, c, w, Admit(a[n])), b, n + 1, a)
  {
    assert a[b..n + 1] == a[b..n] + [a[n]] && a[..n + 1] == a[..n] + [a[n]];
    assert |multiset(a[b..n])| == n - b;
    assert a[n] !in a[..n];
  }

  lemma OneMoreCounts(max: nat, c: nat, w: Watch, b: nat, n: nat, a: seq<Mint>)
    requires b < n <= |a| && Waiting(w, b, n, a)
    ensures Waiting(Next(max, c, w, Increment(a[b])), b + 1, n, a)
  {
    assert a[b..n] == [a[b]] + a[b + 1..n];
  }

  /** One after the other, `b` callers get in. */
  lemma {:induction false} Serially(max: nat, c: nat, b: nat, a: seq<Mint>) returns (ss: seq<Step>)
    requires b <= max && c >= 1 && b <= |a| && Distinct(a)
    ensures Waiting(Run(max, c, ss), b, b, a)
  {
    if b == 0 {
      ss := [];
    } else {
      hide Next, Run, Waiting, Distinct;
      ss := Serially(max, c, b - 1, a);
      OneMoreWaits(max, c, Run(max, c, ss), b - 1, b - 1, a);
      RunSnoc(max, c, ss, Admit(a[b - 1]));
      ss := ss + [Admit(a[b - 1])];
      OneMoreCounts(max, c, Run(max, c, ss), b - 1, b, a);
      RunSnoc(max, c, ss, Increment(a[b - 1]));
      ss := ss + [Increment(a[b - 1])];
    }
  }

  /** Then `n - b` more pass the lock before any of them counts itself. */
  lemma {:induction false} Together(max: nat, c: nat, b: nat, n: nat, a: seq<Mint>) returns (ss: seq<Step>)
    requires b < max && b <= n <= |a| && n - b <= c && c >= 1 && Distinct(a)
    ensures Waiting(Run(max, c, ss), b, n, a)
  {
    hide Next, Run, Waiting, Distinct;
    if n == b {
      ss := Serially(max, c, b, a);
    } else {
      ss := Together(max, c, b, n - 1, a);
      OneMoreWaits(max, c, Run(max, c, ss), b, n - 1, a);
      RunSnoc(max, c, ss, Admit(a[n - 1]));
      ss := ss + [Admit(a[n - 1])];
    }
  }

  /** And then `k` of those count themselves. */
  lemma {:induction false} AllCount(max: nat, c: nat, b: nat, k: nat, n: nat, a: seq<Mint>) returns (ss: seq<Step>)
    requires b < max && b <= k <= n <= |a| && n - b <= c && c >= 1 && Distinct(a)
    ensures Waiting(Run(max, c, ss), k, n, a)
    decreases k
  {
    hide Next, Run, Waiting, Distinct;
    if k == b {
      ss := Together(max, c, b, n, a);
    } else {
      ss := AllCount(max, c, b, k - 1, n, a);
      OneMoreCounts(max, c, Run(max, c, ss), k - 1, n, a);
      RunSnoc(max, c, ss, Increment(a[k - 1]));
      ss := ss + [Increment(a[k - 1])];
    }
  }

  /** For any cap and any number of simultaneous callers the excess of c - 1 is reached. */
  lemma BurstExceedsCap(max: nat, c: nat)
    requires max >= 1 && c >= 1
    ensures exists ss :: Run(max, c, ss).running == max + c - 1
  {
    var n := max + c - 1;
    NamesDiffer(n);
    var ss := AllCount(max, c, max - 1, n, n, Names(n));
    assert Run(max, c, ss).running == n;
  }

  lemma {:induction false} NobodyEnters(max: nat, c: nat, ss: seq<Step>)
    requires c == 0 || max == 0
    ensures Run(max, c, ss) == START
  {
    if ss != [] { NobodyEnters(max, c, ss[..|ss| - 1]); }
  }

  /** The cap is respected by every interleaving exactly when callers come one at a time, or there is no
      room at all. */
  lemma CapKeptIff(max: nat, c: nat)
    ensures (forall ss :: Run(max, c, ss).running <= max) <==> c <= 1 || max == 0
  {
    hide Run;
    if c == 0 || max == 0 {
      forall ss ensures Run(max, c, ss).running <= max { NobodyEnters(max, c, ss); }
    } else if c == 1 {
      forall ss ensures Run(max, c, ss).running <= max { SerialCallersRespectCap(max, ss); }
    } else {
      BurstExceedsCap(max, c);
    }
  }
}
