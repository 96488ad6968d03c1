/**
 Selling through Jupiter after graduation (src/autobuy/pump_brocker.rs): chunk sizes, the balance-drop
 confirmation with slack, and the loop that sells one chunk after the other, first whole and then in
 four parts. Balances are raw u64 units; what the chain and the HTTP service answer is an input.
 */
module JupiterSell {

  import opened Common
  import opened Curve

  // ---- chunk sizes ---------------------------------------------------------------------------

  /** The whole amount goes as one chunk. */
  predicate Unsplit(total: u64, parts: nat) { parts <= 1 || total < parts * 50_000 }

  function Part(total: u64, parts: nat): (p: u64)
    requires !Unsplit(total, parts)
  {
    PartFits(total, parts);
    Quot(total, parts)
  }

  function LastPart(total: u64, parts: nat): (p: u64)
    requires !Unsplit(total, parts)
  {
    PartFits(total, parts);
    total - Quot(total, parts) * (parts - 1)
  }

  lemma PartFits(total: u64, parts: nat)
    requires !Unsplit(total, parts)
    ensures 50_000 <= Quot(total, parts) <= total
    ensures 50_000 <= total - Quot(total, parts) * (parts - 1) <= total
  {
    var each := Quot(total, parts);
    DivAdjoint(total, parts, 50_000);
    DivAdjoint(total, parts, each);
    MulMono(1, parts, each);
    assert each * parts == each * (parts - 1) + each;
    MulMono(0, parts - 1, each);
  }

  /** `jupiter_chunk_amounts`. */
  method JupiterChunkAmounts(total: u64, parts: nat) returns (chunks: seq<u64>)
    ensures chunks == Chunks(total, parts)
  {
    hide Part, LastPart;
    if total == 0 {
      return [];
    }
    if parts <= 1 || total < parts * 50_000 {
      return [total];
    }
    var each := Part(total, parts);
    chunks := [];
    var i := 0;
    while i < parts - 1
      invariant 0 <= i <= parts - 1
      invariant chunks == seq(i, _ => each)
    {
      chunks := chunks + [each];
      i := i + 1;
    }
    chunks := chunks + [LastPart(total, parts)];
  }

  function Chunks(total: u64, parts: nat): (c: seq<u64>)
    ensures |c| <= if parts <= 1 then 1 else parts
  {
    if total == 0 then []
    else if Unsplit(total, parts) then [total]
    else var each := Part(total, parts); seq(parts - 1, _ => each) + [LastPart(total, parts)]
  }

  lemma {:induction false} TotalOfEqual(n: nat, x: u64, last: u64)
    ensures Total(seq(n, _ => x) + [last]) == x * n + last
  {
    var s := seq(n, _ => x) + [last];
    if n == 0 {
      assert s == [last];
      assert Total([last]) == last + Total([]);
    } else {
      assert s[1..] == seq(n - 1, _ => x) + [last];
      TotalOfEqual(n - 1, x, last);
      assert x * n == x * (n - 1) + x;
    }
  }

  /** For any total and any number of parts, the chunks are positive and sum to the total; it is split exactly
      when that gives every part 50000 units, then into `parts` chunks, equal but for the last, none smaller. */
  lemma {:induction false} ChunksPartition(total: u64, parts: nat)
    ensures Total(Chunks(total, parts)) == total
    ensures forall i :: 0 <= i < |Chunks(total, parts)| ==> Chunks(total, parts)[i] > 0
    ensures |Chunks(total, parts)| > 1 ==>
              |Chunks(total, parts)| == parts && forall i :: 0 <= i < parts ==> Chunks(total, parts)[i] >= 50_000
    ensures |Chunks(total, parts)| > 1 <==> parts > 1 && total >= parts * 50_000
    ensures |Chunks(total, parts)| > 1 ==> forall i :: 0 <= i < parts - 1 ==> Chunks(total, parts)[i] == total / parts
  {
    if total > 0 && !Unsplit(total, parts) {
      PartFits(total, parts);
      TotalOfEqual(parts - 1, Part(total, parts), LastPart(total, parts));
    } else if total > 0 {
      assert Total([total]) == total + Total([]);
    }
  }

  // ---- confirmation of one chunk ---------------------------------------------------------------

  /** `sell_raw_delta_slack`. */
  function Slack(sold: u64): nat {
    if sold == 0 then 0
    else if sold / 10_000 < 1 then 1 else if sold / 10_000 > 100 then 100 else sold / 10_000
  }

  function MinDrop(sold: u64): nat {
    if sold == 0 then 0 else if SatSub(sold, Slack(sold)) < 1 then 1 else SatSub(sold, Slack(sold))
  }

  predicate Confirms(pre: u64, sold: u64, read: Option<u64>) {
    read.Some? && SatSub(pre, read.value) >= MinDrop(sold)
  }

  /** `poll_ata_confirms_sell` on an open account: the balances read until the time is up (`None`: the
      read failed); the first one that dropped enough confirms the sell. */
  method PollConfirmsSell(pre: u64, sold: u64, seen: seq<Option<u64>>) returns (post: Option<u64>)
    ensures post.Some? ==> exists i :: 0 <= i < |seen| && seen[i] == post && Confirms(pre, sold, post)
                                       && forall j :: 0 <= j < i ==> !Confirms(pre, sold, seen[j])
    ensures post.None? <==> forall i :: 0 <= i < |seen| ==> !Confirms(pre, sold, seen[i])
    ensures post == Poll(pre, sold, seen)
  {
    var n := 0;
    while n < |seen|
      invariant 0 <= n <= |seen|
      invariant forall j :: 0 <= j < n ==> !Confirms(pre, sold, seen[j])
      invariant Poll(pre, sold, seen) == Poll(pre, sold, seen[n..])
    {
      if Confirms(pre, sold, seen[n]) {
        return seen[n];
      }
      n := n + 1;
    }
    return None;
  }

  function Poll(pre: u64, sold: u64, seen: seq<Option<u64>>): Option<u64> {
    if seen == [] then None
    else if Confirms(pre, sold, seen[0]) then seen[0]
    else Poll(pre, sold, seen[1..])
  }

  /** A read confirms a sell when the balance is lower than before, by the amount sold less a slack of 0.01%
      of it, at least 1 and at most 100 raw units. */
  predicate Dropped(pre: nat, sold: u64, read: Option<u64>) {
    var slack := if sold < 10_000 then 1 else if sold > 1_000_000 then 100 else sold / 10_000;
    read.Some? && read.value < pre && read.value + sold <= pre + slack
  }

  lemma ConfirmsMeans(pre: u64, sold: u64, read: Option<u64>)
    requires sold > 0
    ensures Confirms(pre, sold, read) <==> Dropped(pre, sold, read)
  {
  }

  /** The sell of an amount is confirmed exactly when one of the reads shows such a drop. */
  lemma {:induction false} PollIff(pre: u64, sold: u64, seen: seq<Option<u64>>)
    requires sold > 0
    ensures Poll(pre, sold, seen).Some? <==> exists i :: 0 <= i < |seen| && Dropped(pre, sold, seen[i])
    ensures Poll(pre, sold, seen).Some? ==> Poll(pre, sold, seen) in seen && Dropped(pre, sold, Poll(pre, sold, seen))
  {
    hide Confirms;
    if seen != [] {
      ConfirmsMeans(pre, sold, seen[0]);
      PollIff(pre, sold, seen[1..]);
      if exists i :: 0 <= i < |seen| && Dropped(pre, sold, seen[i]) {
        var i :| 0 <= i < |seen| && Dropped(pre, sold, seen[i]);
        assert i == 0 || seen[1..][i - 1] == seen[i];
      }
    }
  }

  /** A confirmed balance is below the old one by the amount sold, give or take the slack. */
  lemma {:induction false} ConfirmedDrop(pre: u64, sold: u64, seen: seq<Option<u64>>)
    requires sold > 0 && Poll(pre, sold, seen).Some?
    ensures var post := Poll(pre, sold, seen).value; post < pre && post + sold <= pre + Slack(sold)
  {
    if !Confirms(pre, sold, seen[0]) {
      ConfirmedDrop(pre, sold, seen[1..]);
    }
  }

  // ---- one round of chunks -----------------------------------------------------------------------

  /** What happens to one chunk: whether the swap was built and sent, the balance reads after it, the
      net receipt, and, when the account is to be closed, the balance seen then and the refund. */
  datatype Answer = Answer(sent: bool, seen: seq<Option<u64>>, receipt: real, left: Option<u64>, refund: Option<real>)

  const NEVER_SENT := Answer(false, [], 0.0, None, None)

  /** The answers to the two rounds of a sale: the whole amount as one chunk, then up to four chunks. */
  type Tries = t: seq<seq<Answer>> | |t| == 2 && |t[0]| >= 1 && |t[1]| >= 4
    witness [[NEVER_SENT], [NEVER_SENT, NEVER_SENT, NEVER_SENT, NEVER_SENT]]

  /** The close that follows a chunk, if it is asked for and the account seen empty. */
  function Refund(close: bool, a: Answer): real {
    if close && a.left == Some(0) && a.refund.Some? then a.refund.value else 0.0
  }

  datatype Round = Sold(total: real, posts: seq<u64>) | Broken(confirmed: nat)

  /** Selling the chunks in turn; `close` goes with the last one only. */
  function SellChunks(pre: u64, chunks: seq<u64>, close: bool, answers: seq<Answer>): Round
    requires |answers| >= |chunks|
  {
    if chunks == [] then Sold(0.0, [])
    else
      var a := answers[0];
      var post := if a.sent then Poll(pre, chunks[0], a.seen) else None;
      if post.None? then Broken(0)
      else
        var rest := SellChunks(SatSub(pre, chunks[0]), chunks[1..], close, answers[1..]);
        match rest
        case Broken(n) => Broken(n + 1)
        case Sold(total, posts) => Sold(a.receipt + Refund(close && |chunks| == 1, a) + total, [post.value] + posts)
  }

  /** A round that succeeds leaves at most the last chunk's slack behind, however many chunks there were
      and whatever the balance was: slack does not accumulate. */
  lemma {:induction false} ResidueIsOneSlack(pre: u64, chunks: seq<u64>, close: bool, answers: seq<Answer>)
    requires |answers| >= |chunks| > 0 && forall i :: 0 <= i < |chunks| ==> chunks[i] > 0
    requires SellChunks(pre, chunks, close, answers).Sold?
    ensures var posts := SellChunks(pre, chunks, close, answers).posts;
            && |posts| == |chunks|
            && posts[|posts| - 1] + Total(chunks) <= pre + Slack(chunks[|chunks| - 1]) <= pre + 100
  {
    hide Slack, MinDrop, Poll;
    var rest := chunks[1..];
    ConfirmedDrop(pre, chunks[0], answers[0].seen);
    SlackCap(chunks[|chunks| - 1]);
    if rest == [] {
      assert chunks == [chunks[0]] && Total(rest) == 0;
    } else {
      assert rest[|rest| - 1] == chunks[|chunks| - 1];
      ResidueIsOneSlack(SatSub(pre, chunks[0]), rest, close, answers[1..]);
      FirstNeedsBalance(SatSub(pre, chunks[0]), rest, close, answers[1..]);
    }
  }

  lemma SlackCap(sold: u64)
    ensures Slack(sold) <= 100 && (sold > 0 ==> Slack(sold) >= 1)
  {
  }

  /** No chunk can be confirmed against an empty balance. */
  lemma FirstNeedsBalance(pre: u64, chunks: seq<u64>, close: bool, answers: seq<Answer>)
    requires |answers| >= |chunks| > 0 && chunks[0] > 0
    requires SellChunks(pre, chunks, close, answers).Sold?
    ensures pre > 0
  {
    hide MinDrop;
    ConfirmedDrop(pre, chunks[0], answers[0].seen);
  }

  function Receipts(n: nat, answers: seq<Answer>): real
    requires |answers| >= n
  {
    if n == 0 then 0.0 else Receipts(n - 1, answers) + answers[n - 1].receipt
  }

  lemma {:induction false} ReceiptsFront(n: nat, answers: seq<Answer>)
    requires |answers| >= n > 0
    ensures Receipts(n, answers) == answers[0].receipt + Receipts(n - 1, answers[1..])
  {
    if n > 1 { ReceiptsFront(n - 1, answers); }
  }

  /** A round's total is the sum of its receipts, and the refund of the close when that was asked for, the
      account read empty after the last chunk, and the close went through. */
  lemma {:induction false} RoundTotal(pre: u64, chunks: seq<u64>, close: bool, answers: seq<Answer>)
    requires |answers| >= |chunks| && SellChunks(pre, chunks, close, answers).Sold?
    ensures SellChunks(pre, chunks, close, answers).total ==
            Receipts(|chunks|, answers)
            + if chunks == [] then 0.0
              else var last := answers[|chunks| - 1];
                   if close && last.left == Some(0) && last.refund.Some? then last.refund.value else 0.0
  {
    if chunks != [] {
      hide Poll;
      ReceiptsFront(|chunks|, answers);
      RoundTotal(SatSub(pre, chunks[0]), chunks[1..], close, answers[1..]);
    }
  }

  /** Chunk `i` went through: it was sent, and a balance read after it showed the drop, from the starting
      balance less the chunks before it. */
  predicate ChunkSeen(pre: u64, chunks: seq<u64>, answers: seq<Answer>, i: nat)
    requires i < |chunks| <= |answers|
  {
    answers[i].sent
    && exists j :: 0 <= j < |answers[i].seen| && Dropped(SatSub(pre, Total(chunks[..i])), chunks[i], answers[i].seen[j])
  }

  lemma ChunkLater(pre: u64, chunks: seq<u64>, answers: seq<Answer>, i: nat)
    requires i + 1 < |chunks| <= |answers|
    ensures ChunkSeen(pre, chunks, answers, i + 1) <==> ChunkSeen(SatSub(pre, chunks[0]), chunks[1..], answers[1..], i)
  {
    hide Dropped;
    assert chunks[..i + 1][1..] == chunks[1..][..i];
    assert Total(chunks[..i + 1]) == chunks[0] + Total(chunks[1..][..i]);
  }

  /** A round goes through exactly when every chunk did; one that breaks counts the chunks before the first
      that did not. */
  lemma {:induction false} RoundIff(pre: u64, chunks: seq<u64>, close: bool, answers: seq<Answer>)
    requires |answers| >= |chunks| && forall i :: 0 <= i < |chunks| ==> chunks[i] > 0
    ensures var r := SellChunks(pre, chunks, close, answers);
            && (r.Sold? <==> forall i :: 0 <= i < |chunks| ==> ChunkSeen(pre, chunks, answers, i))
            && (r.Sold? ==> |r.posts| == |chunks|)
            && (r.Broken? ==> r.confirmed < |chunks| && !ChunkSeen(pre, chunks, answers, r.confirmed)
                              && forall i :: 0 <= i < r.confirmed ==> ChunkSeen(pre, chunks, answers, i))
  {
    if chunks != [] {
      var a := answers[0];
      PollIff(pre, chunks[0], a.seen);
      assert chunks[..0] == [];
      assert ChunkSeen(pre, chunks, answers, 0) <==> a.sent && Poll(pre, chunks[0], a.seen).Some?;
      forall i | 0 <= i < |chunks| - 1
        ensures ChunkSeen(pre, chunks, answers, i + 1) <==> ChunkSeen(SatSub(pre, chunks[0]), chunks[1..], answers[1..], i)
      {
        ChunkLater(pre, chunks, answers, i);
      }
      hide Poll, ChunkSeen, Dropped, Refund;
      RoundIff(SatSub(pre, chunks[0]), chunks[1..], close, answers[1..]);
      RoundFront(pre, chunks, close, answers);
      var rest := SellChunks(SatSub(pre, chunks[0]), chunks[1..], close, answers[1..]);
      if forall i :: 0 <= i < |chunks| ==> ChunkSeen(pre, chunks, answers, i) {
        forall i | 0 <= i < |chunks| - 1 ensures ChunkSeen(SatSub(pre, chunks[0]), chunks[1..], answers[1..], i) {
          assert ChunkSeen(pre, chunks, answers, i + 1);
        }
      }
      if rest.Sold? {
        forall i | 1 <= i < |chunks| ensures ChunkSeen(pre, chunks, answers, i) {
          assert ChunkSeen(SatSub(pre, chunks[0]), chunks[1..], answers[1..], i - 1);
        }
      } else {
        forall i | 1 <= i < rest.confirmed + 1 ensures ChunkSeen(pre, chunks, answers, i) {
          assert ChunkSeen(SatSub(pre, chunks[0]), chunks[1..], answers[1..], i - 1);
        }
      }
    }
  }

  lemma RoundFront(pre: u64, chunks: seq<u64>, close: bool, answers: seq<Answer>)
    requires |answers| >= |chunks| > 0
    ensures var r, rest := SellChunks(pre, chunks, close, answers), SellChunks(SatSub(pre, chunks[0]), chunks[1..], close, answers[1..]);
            var first := answers[0].sent && Poll(pre, chunks[0], answers[0].seen).Some?;
            && (!first ==> r == Broken(0))
            && (first && rest.Broken? ==> r == Broken(rest.confirmed + 1))
            && (first && rest.Sold? ==> r.Sold? && |r.posts| == |rest.posts| + 1)
  {
    hide Poll, Refund;
  }

  // ---- the whole sale --------------------------------------------------------------------------

  datatype Receipt = Received(total: real, posts: seq<u64>) | Exhausted

  /** One round: chunk after chunk until one fails. */
  method SellRound(pre: u64, chunks: seq<u64>, close: bool, answers: seq<Answer>) returns (r: Round)
    requires |answers| >= |chunks|
    ensures r == SellChunks(pre, chunks, close, answers)
  {
    hide Poll, Refund;
    var total, left: u64, i, posts := 0.0, pre, 0, [];
    while i < |chunks|
      invariant 0 <= i <= |chunks| && |posts| == i
      invariant SellChunks(pre, chunks, close, answers) == Prepend(total, posts, SellChunks(left, chunks[i..], close, answers[i..]))
    {
      var a := answers[i];
      var post := None;
      if a.sent {
        post := PollConfirmsSell(left, chunks[i], a.seen);
      }
      if post.None? {
        return Broken(i);
      }
      assert chunks[i..][1..] == chunks[i + 1..] && answers[i..][1..] == answers[i + 1..];
      var got := a.receipt + Refund(close && i + 1 == |chunks|, a);
      PrependStep(total, posts, got, post.value, SellChunks(SatSub(left, chunks[i]), chunks[i + 1..], close, answers[i + 1..]));
      total := total + got;
      posts := posts + [post.value];
      left := SatSub(left, chunks[i]);
      i := i + 1;
    }
    assert chunks[i..] == [];
    assert posts + [] == posts;
    return Sold(total, posts);
  }

  /** `sell_tokens_post_graduation`: the whole amount first, then four chunks from the same balance.
      `tries` answers the chunks of each round. A broken round's receipts are not in the result. */
  method SellPostGraduation(pre: u64, sold: u64, close: bool, tries: Tries) returns (r: Receipt)
    ensures r == Sale(pre, sold, close, tries)
  {
    hide Chunks, SellChunks;
    var sizes := [1, 4];
    var k := 0;
    while k < 2
      invariant 0 <= k <= 2 && sizes == [1, 4]
      invariant k >= 1 ==> !SellChunks(pre, Chunks(sold, 1), close, tries[0]).Sold?
      invariant k == 2 ==> !SellChunks(pre, Chunks(sold, 4), close, tries[1]).Sold?
    {
      var chunks := JupiterChunkAmounts(sold, sizes[k]);
      var round := SellRound(pre, chunks, close, tries[k]);
      if round.Sold? {
        return Received(round.total, round.posts);
      }
      k := k + 1;
    }
    return Exhausted;
  }

  function Prepend(total: real, posts: seq<u64>, r: Round): Round {
    match r
    case Broken(n) => Broken(n + |posts|)
    case Sold(t, ps) => Sold(total + t, posts + ps)
  }

  lemma PrependStep(total: real, posts: seq<u64>, more: real, post: u64, rest: Round)
    ensures var one := match rest case Broken(n) => Broken(n + 1) case Sold(t, ps) => Sold(more + t, [post] + ps);
            Prepend(total, posts, one) == Prepend(total + more, posts + [post], rest)
  {
    if rest.Sold? { assert posts + ([post] + rest.posts) == posts + [post] + rest.posts; }
  }

  function Sale(pre: u64, sold: u64, close: bool, tries: Tries): Receipt
  {
    var first := SellChunks(pre, Chunks(sold, 1), close, tries[0]);
    var second := SellChunks(pre, Chunks(sold, 4), close, tries[1]);
    if first.Sold? then Received(first.total, first.posts)
    else if second.Sold? then Received(second.total, second.posts)
    else Exhausted
  }

  /** The refund that a close with the last chunk brings. */
  function CloseRefund(close: bool, last: Answer): real {
    if close && last.left == Some(0) && last.refund.Some? then last.refund.value else 0.0
  }

  /** A sale succeeds exactly when the whole amount goes through as one chunk or, failing that, every one of up
      to four chunks does, measured again from the balance before the sale; it reports the receipts of the
      round that did, with the refund of its close. */
  lemma SaleIff(pre: u64, sold: u64, close: bool, tries: Tries)
    requires sold > 0
    ensures var r, four := Sale(pre, sold, close, tries), Chunks(sold, 4);
            var whole := ChunkSeen(pre, [sold], tries[0], 0);
            var parts := forall i :: 0 <= i < |four| ==> ChunkSeen(pre, four, tries[1], i);
            && 1 <= |four| <= 4
            && (r.Received? <==> whole || parts)
            && (whole ==> |r.posts| == 1 && r.total == tries[0][0].receipt + CloseRefund(close, tries[0][0]))
            && (!whole && parts ==>
                  |r.posts| == |four| && r.total == Receipts(|four|, tries[1]) + CloseRefund(close, tries[1][|four| - 1]))
  {
    var four := Chunks(sold, 4);
    assert Chunks(sold, 1) == [sold];
    ChunksPartition(sold, 4);
    SomeChunk(sold, 4);
    hide Chunks, SellChunks, ChunkSeen;
    RoundIff(pre, [sold], close, tries[0]);
    RoundIff(pre, four, close, tries[1]);
    if SellChunks(pre, [sold], close, tries[0]).Sold? {
      RoundTotal(pre, [sold], close, tries[0]);
      assert Receipts(1, tries[0]) == Receipts(0, tries[0]) + tries[0][0].receipt;
    } else if SellChunks(pre, four, close, tries[1]).Sold? {
      RoundTotal(pre, four, close, tries[1]);
    }
  }

  /** A successful sale of anything leaves at most `pre - sold + 100` raw units at the last confirmation,
      in one chunk or four, and sells only from a balance that had the amount up to that slack. */
  lemma {:induction false} SaleResidue(pre: u64, sold: u64, close: bool, tries: Tries)
    requires sold > 0
    requires Sale(pre, sold, close, tries).Received?
    ensures var posts := Sale(pre, sold, close, tries).posts;
            posts != [] && posts[|posts| - 1] + sold <= pre + 100
  {
    ChunksPartition(sold, 1);
    ChunksPartition(sold, 4);
    hide Chunks, SellChunks;
    if SellChunks(pre, Chunks(sold, 1), close, tries[0]).Sold? {
      SomeChunk(sold, 1);
      ResidueIsOneSlack(pre, Chunks(sold, 1), close, tries[0]);
    } else {
      SomeChunk(sold, 4);
      ResidueIsOneSlack(pre, Chunks(sold, 4), close, tries[1]);
    }
  }

  lemma SomeChunk(sold: u64, parts: nat)
    requires sold > 0
    ensures |Chunks(sold, parts)| > 0
  {
  }

  /** The answer to the chunk that ended a successful sale. */
  function LastAnswer(pre: u64, sold: u64, close: bool, tries: Tries): Answer
    requires sold > 0
  {
    SomeChunk(sold, 1);
    SomeChunk(sold, 4);
    if SellChunks(pre, Chunks(sold, 1), close, tries[0]).Sold? then tries[0][|Chunks(sold, 1)| - 1]
    else tries[1][|Chunks(sold, 4)| - 1]
  }

  /** The balance the program last saw after a successful sale: the read before the close when one was
      asked for and answered, the last confirmed balance otherwise. */
  function Held(pre: u64, sold: u64, close: bool, tries: Tries): u64
    requires sold > 0 && Sale(pre, sold, close, tries).Received?
  {
    SaleResidue(pre, sold, close, tries);
    var posts, left := Sale(pre, sold, close, tries).posts, LastAnswer(pre, sold, close, tries).left;
    if close && left.Some? then left.value else posts[|posts| - 1]
  }

  // ---- receipts that do not come back ------------------------------------------------------------

  /** The chunks of a round that are confirmed on chain before the first that is not. */
  function Confirmed(pre: u64, chunks: seq<u64>, answers: seq<Answer>): (n: nat)
    requires |answers| >= |chunks|
    ensures n <= |chunks|
  {
    if chunks == [] || !answers[0].sent || Poll(pre, chunks[0], answers[0].seen).None? then 0
    else 1 + Confirmed(SatSub(pre, chunks[0]), chunks[1..], answers[1..])
  }

  /** The money those chunks bring in. */
  function Taken(pre: u64, chunks: seq<u64>, close: bool, answers: seq<Answer>): real
    requires |answers| >= |chunks|
  {
    if chunks == [] || !answers[0].sent || Poll(pre, chunks[0], answers[0].seen).None? then 0.0
    else answers[0].receipt + Refund(close && |chunks| == 1, answers[0])
         + Taken(SatSub(pre, chunks[0]), chunks[1..], close, answers[1..])
  }

  /** A round reports what it took when every chunk is confirmed, and only a count otherwise. */
  lemma {:induction false} RoundAccounts(pre: u64, chunks: seq<u64>, close: bool, answers: seq<Answer>)
    requires |answers| >= |chunks|
    ensures var r, n := SellChunks(pre, chunks, close, answers), Confirmed(pre, chunks, answers);
            && (r.Sold? <==> n == |chunks|)
            && (r.Sold? ==> |r.posts| == n && r.total == Taken(pre, chunks, close, answers))
            && (r.Broken? ==> r.confirmed == n)
  {
    if chunks != [] {
      hide Poll, Refund;
      RoundAccounts(SatSub(pre, chunks[0]), chunks[1..], close, answers[1..]);
    }
  }

  /** The second round runs: the whole amount did not go through as one chunk. */
  predicate Retries(pre: u64, sold: u64, tries: Tries)
  {
    Confirmed(pre, Chunks(sold, 1), tries[0]) < |Chunks(sold, 1)|
  }

  /** Chunks confirmed on chain over the whole sale, and the money they bring in. */
  function SaleConfirmed(pre: u64, sold: u64, tries: Tries): nat
  {
    Confirmed(pre, Chunks(sold, 1), tries[0])
    + if Retries(pre, sold, tries) then Confirmed(pre, Chunks(sold, 4), tries[1]) else 0
  }

  function SaleTaken(pre: u64, sold: u64, close: bool, tries: Tries): real
  {
    Taken(pre, Chunks(sold, 1), close, tries[0])
    + if Retries(pre, sold, tries) then Taken(pre, Chunks(sold, 4), close, tries[1]) else 0.0
  }

  function Reported(r: Receipt): nat { if r.Received? then |r.posts| else 0 }

  function ReportedMoney(r: Receipt): real { if r.Received? then r.total else 0.0 }

  lemma NothingConfirmed(pre: u64, sold: u64, close: bool, tries: Tries)
    ensures SaleConfirmed(pre, sold, tries) == 0 ==> SaleTaken(pre, sold, close, tries) == 0.0
  {
    hide Confirmed, Taken, Chunks;
    NothingTaken(pre, Chunks(sold, 1), close, tries[0]);
    NothingTaken(pre, Chunks(sold, 4), close, tries[1]);
  }

  /** Both rounds break, the second after at least one of its chunks was confirmed. */
  predicate SaleLoses(pre: u64, sold: u64, close: bool, tries: Tries) {
    var first, second := SellChunks(pre, Chunks(sold, 1), close, tries[0]), SellChunks(pre, Chunks(sold, 4), close, tries[1]);
    first.Broken? && second.Broken? && second.confirmed >= 1
  }

  /** For all answers: a confirmed chunk is missing from the result if and only if the sale fails as one
      chunk and then breaks after at least one of the four; the money missing is exactly what those chunks
      brought in, and nothing is missing otherwise. */
  lemma {:induction false} ReceiptsLostIff(pre: u64, sold: u64, close: bool, tries: Tries)
    ensures var r, lost := Sale(pre, sold, close, tries), SaleLoses(pre, sold, close, tries);
            && (SaleConfirmed(pre, sold, tries) > Reported(r) <==> lost)
            && SaleTaken(pre, sold, close, tries) - ReportedMoney(r) ==
               (if lost then Taken(pre, Chunks(sold, 4), close, tries[1]) else 0.0)
            && (r.Exhausted? && SaleConfirmed(pre, sold, tries) > 0 <==> lost)
            && (lost ==> SaleTaken(pre, sold, close, tries) == Taken(pre, Chunks(sold, 4), close, tries[1]))
  {
    var one, four := Chunks(sold, 1), Chunks(sold, 4);
    RoundAccounts(pre, one, close, tries[0]);
    RoundAccounts(pre, four, close, tries[1]);
    NothingTaken(pre, one, close, tries[0]);
    NothingTaken(pre, four, close, tries[1]);
    hide SellChunks, Chunks, Confirmed, Taken;
  }

  /** Every receipt is positive and no refund negative. */
  predicate Pays(answers: seq<Answer>) {
    forall i :: 0 <= i < |answers| ==> answers[i].receipt > 0.0 && (answers[i].refund.Some? ==> answers[i].refund.value >= 0.0)
  }

  lemma {:induction false} ConfirmedPays(pre: u64, chunks: seq<u64>, close: bool, answers: seq<Answer>)
    requires |answers| >= |chunks| && Pays(answers)
    ensures Taken(pre, chunks, close, answers) >= 0.0
    ensures Confirmed(pre, chunks, answers) >= 1 ==> Taken(pre, chunks, close, answers) > 0.0
  {
    if chunks != [] {
      hide Poll;
      ConfirmedPays(SatSub(pre, chunks[0]), chunks[1..], close, answers[1..]);
    }
  }

  /** When receipts are positive, a sale brings in something exactly when a chunk is confirmed. */
  lemma SalePays(pre: u64, sold: u64, close: bool, tries: Tries)
    requires Pays(tries[0]) && Pays(tries[1])
    ensures SaleTaken(pre, sold, close, tries) >= 0.0
    ensures SaleLoses(pre, sold, close, tries) ==> Taken(pre, Chunks(sold, 4), close, tries[1]) > 0.0
  {
    hide Confirmed, Taken, Pays, Chunks, SellChunks;
    ConfirmedPays(pre, Chunks(sold, 1), close, tries[0]);
    ConfirmedPays(pre, Chunks(sold, 4), close, tries[1]);
    RoundAccounts(pre, Chunks(sold, 4), close, tries[1]);
  }

  lemma NothingTaken(pre: u64, chunks: seq<u64>, close: bool, answers: seq<Answer>)
    requires |answers| >= |chunks|
    ensures Confirmed(pre, chunks, answers) == 0 ==> Taken(pre, chunks, close, answers) == 0.0
  {
    hide Poll;
  }

  /** A sale of 200000 units: not sent whole, then the first quarter is confirmed for one SOL and the second
      is not sent. The sale fails, and the SOL is in no result. */
  lemma OneQuarterLost()
    ensures var tries: Tries := [[NEVER_SENT], [Answer(true, [Some(150000)], 1.0, None, None), NEVER_SENT, NEVER_SENT, NEVER_SENT]];
            && Sale(200000, 200000, true, tries) == Exhausted
            && SaleConfirmed(200000, 200000, tries) == 1 && SaleTaken(200000, 200000, true, tries) == 1.0
  {
    var quarter := Answer(true, [Some(150000)], 1.0, None, None);
    var answers := [quarter, NEVER_SENT, NEVER_SENT, NEVER_SENT];
    var four := Chunks(200000, 4);
    assert four == [50000, 50000, 50000, 50000];
    assert Confirms(200000, 50000, Some(150000));
    assert Poll(200000, 50000, quarter.seen) == Some(150000);
    assert four[1..] == [50000, 50000, 50000] && answers[1..] == [NEVER_SENT, NEVER_SENT, NEVER_SENT];
    assert SellChunks(150000, four[1..], true, answers[1..]) == Broken(0);
    assert Confirmed(150000, four[1..], answers[1..]) == 0 && Taken(150000, four[1..], true, answers[1..]) == 0.0;
  }
}
