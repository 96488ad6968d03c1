/**
 Message accounting of a log feed (src/feed/logs_feed.rs, counters in src/feed/metrics.rs). Counters
 are unbounded here; the program's are u64. What each line parses to and how many more events the
 receiver takes are inputs.
 */
module LogFeed {

  import opened Common
  import opened Dedup

  /** A log line: whether it carries the program-data prefix, and whether its payload parses. */
  datatype Line = Line(programData: bool, parses: bool)

  datatype Message = Message(failed: bool, sig: Sig, lines: seq<Line>)

  datatype Counters = Counters(
    messages: nat, failed: nat, selfDup: nat, noData: nat, crossDup: nat,
    linesTotal: nat, linesPd: nat, events: nat, parseErrors: nat)

  const ZERO := Counters(0, 0, 0, 0, 0, 0, 0, 0, 0)

  function DataLines(lines: seq<Line>): (n: nat)
    ensures n <= |lines|
  {
    if lines == [] then 0 else DataLines(lines[..|lines| - 1]) + if lines[|lines| - 1].programData then 1 else 0
  }

  /** What the parsing loop counts, and whether the receiver was there to the end. */
  datatype Parsed = Parsed(events: nat, errors: nat, alive: bool)

  /** The first lines of a message, when the receiver takes `room` more events. */
  function ParseLines(lines: seq<Line>, room: nat): Parsed {
    if lines == [] then Parsed(0, 0, true)
    else
      var before, l := ParseLines(lines[..|lines| - 1], room), lines[|lines| - 1];
      if !before.alive || !l.programData then before
      else if l.parses then Parsed(before.events + 1, before.errors, before.events < room)
      else before.(errors := before.errors + 1)
  }

  function Counted(c: Counters, m: Message, dup: bool, crossed: bool, room: nat): Counters {
    var c := c.(messages := c.messages + 1);
    if m.failed then c.(failed := c.failed + 1)
    else if dup then c.(selfDup := c.selfDup + 1)
    else
      var pd := DataLines(m.lines);
      var c := c.(crossDup := c.crossDup + (if crossed then 1 else 0), linesTotal := c.linesTotal + |m.lines|, linesPd := c.linesPd + pd);
      if pd == 0 then c.(noData := c.noData + 1)
      else var p := ParseLines(m.lines, room); c.(events := c.events + p.events, parseErrors := c.parseErrors + p.errors)
  }

  // ---- the loop ------------------------------------------------------------------------------

  class FeedMetrics {
    var messages: nat
    var failed: nat
    var selfDup: nat
    var noData: nat
    var crossDup: nat
    var linesTotal: nat
    var linesPd: nat
    var events: nat
    var parseErrors: nat

    function Counts(): Counters
      reads this
    {
      Counters(messages, failed, selfDup, noData, crossDup, linesTotal, linesPd, events, parseErrors)
    }

    constructor ()
      ensures Counts() == ZERO
    {
      messages, failed, selfDup, noData, crossDup := 0, 0, 0, 0, 0;
      linesTotal, linesPd, events, parseErrors := 0, 0, 0, 0;
    }
  }

  class Subscription {
    const name: string
    const metrics: FeedMetrics
    const ownDedup: SelfDedup
    const shared: SignatureDedup

    constructor (name: string, metrics: FeedMetrics, ownDedup: SelfDedup, shared: SignatureDedup)
      ensures this.name == name && this.metrics == metrics && this.ownDedup == ownDedup && this.shared == shared
    {
      this.name, this.metrics, this.ownDedup, this.shared := name, metrics, ownDedup, shared;
    }

    /** The body of the receive loop for one message; false when the receiver is gone. */
    method Receive(m: Message, room: nat) returns (alive: bool)
      requires ownDedup.Valid() && shared.Valid()
      modifies metrics, ownDedup, shared
      ensures ownDedup.Valid() && shared.Valid()
      ensures var dup := m.sig != "" && m.sig in Window(ownDedup.capacity, old(ownDedup.history));
              var crossed := m.sig != "" && ClaimedElsewhere(Remembered(shared.capacity, old(shared.history)), m.sig, name);
              && metrics.Counts() == Counted(old(metrics.Counts()), m, dup, crossed, room)
              && (alive <==> m.failed || dup || DataLines(m.lines) == 0 || ParseLines(m.lines, room).alive)
      ensures ownDedup.history == old(ownDedup.history) + if m.failed || m.sig == "" then [] else [m.sig]
    {
      hide Window, ClaimedElsewhere, Remembered, DataLines, ParseLines;
      metrics.messages := metrics.messages + 1;
      if m.failed {
        metrics.failed := metrics.failed + 1;
        return true;
      }
      var dup, crossed := false, false;
      if m.sig != "" {
        dup := ownDedup.CheckAndRemember(m.sig);
        if dup {
          metrics.selfDup := metrics.selfDup + 1;
          return true;
        }
        crossed := shared.Observe(m.sig, name);
      }
      alive := Read(m, crossed, room);
    }

    /** A message that passed the dedup: overlap, prefilter, parsing. */
    method Read(m: Message, crossed: bool, room: nat) returns (alive: bool)
      requires !m.failed
      modifies metrics
      ensures metrics.Counts().(messages := old(metrics.messages) + 1) == Counted(old(metrics.Counts()), m, false, crossed, room)
      ensures metrics.messages == old(metrics.messages)
      ensures alive <==> DataLines(m.lines) == 0 || ParseLines(m.lines, room).alive
    {
      hide DataLines, ParseLines;
      if crossed {
        metrics.crossDup := metrics.crossDup + 1;
      }
      var pd := CountDataLines(m.lines);
      metrics.linesTotal := metrics.linesTotal + |m.lines|;
      metrics.linesPd := metrics.linesPd + pd;
      if pd == 0 {
        metrics.noData := metrics.noData + 1;
        return true;
      }
      alive := Parse(m.lines, room);
    }

    method CountDataLines(lines: seq<Line>) returns (n: nat)
      ensures n == DataLines(lines)
    {
      n := 0;
      var i := 0;
      while i < |lines|
        invariant 0 <= i <= |lines| && n == DataLines(lines[..i])
      {
        assert lines[..i + 1][..i] == lines[..i];
        if lines[i].programData {
          n := n + 1;
        }
        i := i + 1;
      }
      assert lines[..i] == lines;
    }

    /** Parses the data lines in turn and forwards the events; stops when the receiver is gone. */
    method Parse(lines: seq<Line>, room: nat) returns (alive: bool)
      modifies metrics
      ensures var p := ParseLines(lines, room);
              && alive == p.alive
              && metrics.Counts() == old(metrics.Counts()).(events := old(metrics.events) + p.events, parseErrors := old(metrics.parseErrors) + p.errors)
    {
      var i, sent := 0, 0;
      while i < |lines|
        invariant 0 <= i <= |lines|
        invariant var p := ParseLines(lines[..i], room);
          && p.alive && sent == p.events
          && metrics.Counts() == old(metrics.Counts()).(events := old(metrics.events) + p.events, parseErrors := old(metrics.parseErrors) + p.errors)
      {
        assert lines[..i + 1][..i] == lines[..i];
        if lines[i].programData {
          if lines[i].parses {
            metrics.events := metrics.events + 1;
            if sent >= room {
              DeadStays(lines, room, i + 1);
              return false;
            }
            sent := sent + 1;
          } else {
            metrics.parseErrors := metrics.parseErrors + 1;
          }
        }
        i := i + 1;
      }
      assert lines[..i] == lines;
      return true;
    }

    /** The feed over a stream of messages, each with the number of events the receiver still takes: the
        counters are those of the run, with the overlap the shared cache reports. */
    method Listen(ms: seq<(Message, nat)>) returns (ghost h: seq<Delivery>)
      requires ownDedup.Valid() && shared.Valid() && ownDedup.history == [] && metrics.Counts() == ZERO
      modifies metrics, ownDedup, shared
      ensures |h| == |ms| && forall i :: 0 <= i < |ms| ==> h[i].msg == ms[i].0 && h[i].room == ms[i].1
      ensures metrics.Counts() == FeedRun(ownDedup.capacity, h) && ownDedup.history == Checked(h)
    {
      hide Window, ClaimedElsewhere, Remembered, DataLines, ParseLines, Counted;
      h := [];
      var i := 0;
      while i < |ms|
        invariant 0 <= i <= |ms| && |h| == i
        invariant ownDedup.Valid() && shared.Valid()
        invariant forall j :: 0 <= j < i ==> h[j].msg == ms[j].0 && h[j].room == ms[j].1
        invariant metrics.Counts() == FeedRun(ownDedup.capacity, h) && ownDedup.history == Checked(h)
      {
        var (m, room) := ms[i];
        ghost var crossed := m.sig != "" && ClaimedElsewhere(Remembered(shared.capacity, shared.history), m.sig, name);
        var alive := Receive(m, room);
        ghost var longer := h + [Delivery(m, room, crossed)];
        assert longer[..i] == h;
        h := longer;
        i := i + 1;
      }
    }
  }

  /** After the receiver is gone nothing more is counted. */
  lemma {:induction false} DeadStays(lines: seq<Line>, room: nat, i: nat)
    requires i <= |lines| && !ParseLines(lines[..i], room).alive
    ensures ParseLines(lines, room) == ParseLines(lines[..i], room)
  {
    if i == |lines| {
      assert lines[..i] == lines;
    } else {
      var n := |lines| - 1;
      assert lines[..n][..i] == lines[..i];
      DeadStays(lines[..n], room, i);
    }
  }

  // ---- accounting over any stream ----------------------------------------------------------------

  datatype Delivery = Delivery(msg: Message, room: nat, crossed: bool)

  /** Signatures handed to the feed's own dedup. */
  function Checked(h: seq<Delivery>): seq<Sig> {
    if h == [] then []
    else var m := h[|h| - 1].msg; Checked(h[..|h| - 1]) + if m.failed || m.sig == "" then [] else [m.sig]
  }

  predicate IsDup(capacity: nat, before: seq<Delivery>, m: Message) { m.sig != "" && m.sig in Window(capacity, Checked(before)) }

  function FeedRun(capacity: nat, h: seq<Delivery>): Counters {
    if h == [] then ZERO
    else
      var n := |h| - 1;
      Counted(FeedRun(capacity, h[..n]), h[n].msg, IsDup(capacity, h[..n], h[n].msg), h[n].crossed, h[n].room)
  }

  /** Where one message ends up. */
  datatype Fate = Failed | Duplicate | NoData | Processed

  function FateOf(m: Message, dup: bool): Fate {
    if m.failed then Failed else if dup then Duplicate else if DataLines(m.lines) == 0 then NoData else Processed
  }

  function Tally(capacity: nat, h: seq<Delivery>, f: Fate): nat {
    if h == [] then 0
    else
      var n := |h| - 1;
      Tally(capacity, h[..n], f) + if FateOf(h[n].msg, IsDup(capacity, h[..n], h[n].msg)) == f then 1 else 0
  }

  /** The denominator `snapshot` computes, with its saturating subtractions. */
  function ProcessedAfterPrefilter(c: Counters): nat {
    MaxN(SatSub(SatSub(SatSub(c.messages, c.failed), c.noData), c.selfDup), 1)
  }

  /** Every message of any stream falls in exactly one class, so the subtractions of `snapshot` never
      saturate: they give the number of processed messages. */
  lemma {:induction false} EveryMessageCountedOnce(capacity: nat, h: seq<Delivery>)
    ensures var c := FeedRun(capacity, h);
            && c.messages == |h|
            && c.failed == Tally(capacity, h, Failed) && c.selfDup == Tally(capacity, h, Duplicate) && c.noData == Tally(capacity, h, NoData)
            && c.messages == c.failed + c.selfDup + c.noData + Tally(capacity, h, Processed)
            && ProcessedAfterPrefilter(c) == MaxN(Tally(capacity, h, Processed), 1)
  {
    if h != [] {
      hide IsDup, DataLines, ParseLines;
      EveryMessageCountedOnce(capacity, h[..|h| - 1]);
    }
  }

  lemma {:induction false} TallyGrows(capacity: nat, h: seq<Delivery>, i: nat, f: Fate)
    requires i <= |h|
    ensures Tally(capacity, h[..i], f) <= Tally(capacity, h, f)
  {
    hide IsDup, FateOf;
    if i == |h| {
      assert h[..i] == h;
    } else {
      assert h[..|h| - 1][..i] == h[..i];
      TallyGrows(capacity, h[..|h| - 1], i, f);
    }
  }

  lemma TallyLater(capacity: nat, h: seq<Delivery>, i: nat, j: nat, f: Fate)
    requires i <= j <= |h|
    ensures Tally(capacity, h[..i], f) <= Tally(capacity, h[..j], f)
  {
    assert h[..j][..i] == h[..i];
    TallyGrows(capacity, h[..j], i, f);
  }

  /** `snapshot` loads its counters one by one while the feed runs: messages first, then failed, without
      data, duplicates. A message is counted before it is classified, so the first load may see one more
      message than were finished (`inside`); each of the others is a single increment and sees the count at
      some later boundary. The result is then at most the messages processed before the first load, and one
      more if it fell inside a message; and it is that number when nothing moved in between. */
  lemma {:induction false} SnapshotWhileRunning(capacity: nat, h: seq<Delivery>, i: nat, inside: bool, j: nat, k: nat, l: nat)
    requires i <= j <= k <= l <= |h|
    ensures var c := ZERO.(messages := FeedRun(capacity, h[..i]).messages + AsNat(inside), failed := FeedRun(capacity, h[..j]).failed,
                           noData := FeedRun(capacity, h[..k]).noData, selfDup := FeedRun(capacity, h[..l]).selfDup);
            && ProcessedAfterPrefilter(c) <= MaxN(Tally(capacity, h[..i], Processed) + AsNat(inside), 1)
            && (i == l ==> ProcessedAfterPrefilter(c) == MaxN(Tally(capacity, h[..i], Processed) + AsNat(inside), 1))
  {
    hide FeedRun, Tally;
    EveryMessageCountedOnce(capacity, h[..i]);
    EveryMessageCountedOnce(capacity, h[..j]);
    EveryMessageCountedOnce(capacity, h[..k]);
    EveryMessageCountedOnce(capacity, h[..l]);
    TallyLater(capacity, h, i, j, Failed);
    TallyLater(capacity, h, i, k, NoData);
    TallyLater(capacity, h, i, l, Duplicate);
  }

  /** The data lines a message leaves unread because the receiver went away. */
  function Unread(m: Message, dup: bool, room: nat): int {
    if FateOf(m, dup).Processed? then DataLines(m.lines) - ParseLines(m.lines, room).events - ParseLines(m.lines, room).errors else 0
  }

  /** Reading stops early only when the receiver is gone. */
  lemma {:induction false} AliveReadsAll(lines: seq<Line>, room: nat)
    ensures var p := ParseLines(lines, room);
            && p.events + p.errors <= DataLines(lines)
            && (p.alive ==> p.events + p.errors == DataLines(lines))
            && (p.alive <==> p.events <= room)
            && p.events <= room + 1
  {
    if lines != [] { AliveReadsAll(lines[..|lines| - 1], room); }
  }

  function TotalUnread(capacity: nat, h: seq<Delivery>): int {
    if h == [] then 0
    else
      var n := |h| - 1;
      TotalUnread(capacity, h[..n]) + Unread(h[n].msg, IsDup(capacity, h[..n], h[n].msg), h[n].room)
  }

  predicate ReceiverStays(h: seq<Delivery>) { forall i :: 0 <= i < |h| ==> ParseLines(h[i].msg.lines, h[i].room).alive }

  /** At every message boundary the program-data lines are the events, the parse errors, and what was
      left unread; nothing is left unread while the receiver is there. */
  lemma {:induction false} LinesBalance(capacity: nat, h: seq<Delivery>)
    ensures var c := FeedRun(capacity, h);
            && c.linesPd == c.events + c.parseErrors + TotalUnread(capacity, h)
            && TotalUnread(capacity, h) >= 0
            && (ReceiverStays(h) ==> c.linesPd == c.events + c.parseErrors)
            && c.linesPd <= c.linesTotal
  {
    if h != [] {
      hide IsDup, DataLines, ParseLines;
      var n := |h| - 1;
      LinesBalance(capacity, h[..n]);
      AliveReadsAll(h[n].msg.lines, h[n].room);
      assert ReceiverStays(h) ==> ParseLines(h[n].msg.lines, h[n].room).alive;
      assert ReceiverStays(h) ==> ReceiverStays(h[..n]);
    }
  }

  // ---- what the counters count ---------------------------------------------------------------------

  /** The data lines of a message whose payload parses, and those whose payload does not, by position. */
  function Good(lines: seq<Line>): set<nat> { set i: nat | i < |lines| && lines[i].programData && lines[i].parses }

  function Bad(lines: seq<Line>): set<nat> { set i: nat | i < |lines| && lines[i].programData && !lines[i].parses }

  lemma OneMoreLine(lines: seq<Line>)
    requires lines != []
    ensures var n := |lines| - 1;
            && |Good(lines)| == |Good(lines[..n])| + AsNat(lines[n].programData && lines[n].parses)
            && |Bad(lines)| == |Bad(lines[..n])| + AsNat(lines[n].programData && !lines[n].parses)
  {
    var n := |lines| - 1;
    assert Good(lines) == Good(lines[..n]) + if lines[n].programData && lines[n].parses then {n} else {};
    assert Bad(lines) == Bad(lines[..n]) + if lines[n].programData && !lines[n].parses then {n} else {};
  }

  /** Every data line is good or bad. Events are the good lines, up to the one that finds the receiver gone;
      errors are the bad ones, all of them while the receiver is there. */
  lemma {:induction false} ParsedCounts(lines: seq<Line>, room: nat)
    ensures DataLines(lines) == |Good(lines)| + |Bad(lines)|
    ensures var p := ParseLines(lines, room);
            && p.events == (if |Good(lines)| <= room then |Good(lines)| else room + 1)
            && (p.alive <==> |Good(lines)| <= room)
            && p.errors <= |Bad(lines)| && (p.alive ==> p.errors == |Bad(lines)|)
  {
    if lines != [] {
      OneMoreLine(lines);
      hide Good, Bad;
      ParsedCounts(lines[..|lines| - 1], room);
    }
  }

  /** A sum over the messages of a stream that are neither failed nor repeated. */
  function SumRead(capacity: nat, h: seq<Delivery>, f: Delivery -> nat): nat {
    if h == [] then 0
    else
      var n := |h| - 1;
      SumRead(capacity, h[..n], f) + if h[n].msg.failed || IsDup(capacity, h[..n], h[n].msg) then 0 else f(h[n])
  }

  const LINES := (d: Delivery) => |d.msg.lines|
  const GOOD := (d: Delivery) => |Good(d.msg.lines)|
  const BAD := (d: Delivery) => |Bad(d.msg.lines)|
  const CROSSED := (d: Delivery) => AsNat(d.crossed)

  lemma OneMoreRead(c: Counters, d: Delivery, dup: bool)
    ensures var c', m, skipped := Counted(c, d.msg, dup, d.crossed, d.room), d.msg, d.msg.failed || dup;
            && c'.linesTotal == c.linesTotal + (if skipped then 0 else |m.lines|)
            && c'.crossDup == c.crossDup + (if skipped then 0 else AsNat(d.crossed))
            && c'.linesPd == c.linesPd + (if skipped then 0 else |Good(m.lines)| + |Bad(m.lines)|)
            && c'.parseErrors <= c.parseErrors + (if skipped then 0 else |Bad(m.lines)|)
            && (ParseLines(m.lines, d.room).alive ==>
                  && c'.events == c.events + (if skipped then 0 else |Good(m.lines)|)
                  && c'.parseErrors == c.parseErrors + (if skipped then 0 else |Bad(m.lines)|))
  {
    hide DataLines, ParseLines, Good, Bad;
    ParsedCounts(d.msg.lines, d.room);
  }

  /** What the line counters hold after any stream: all lines, data lines and overlaps of the messages that
      are neither failed nor repeated; and, while the receiver is there, the events are exactly the lines of
      those that parse and the errors exactly the data lines that do not. */
  lemma {:induction false} CountersAreSums(capacity: nat, h: seq<Delivery>)
    ensures var c := FeedRun(capacity, h);
            && c.linesTotal == SumRead(capacity, h, LINES) && c.crossDup == SumRead(capacity, h, CROSSED)
            && c.linesPd == SumRead(capacity, h, GOOD) + SumRead(capacity, h, BAD)
            && c.parseErrors <= SumRead(capacity, h, BAD)
            && (ReceiverStays(h) ==> c.events == SumRead(capacity, h, GOOD) && c.parseErrors == SumRead(capacity, h, BAD))
  {
    if h != [] {
      hide IsDup, DataLines, ParseLines, Good, Bad, Counted;
      var n := |h| - 1;
      CountersAreSums(capacity, h[..n]);
      OneMoreRead(FeedRun(capacity, h[..n]), h[n], IsDup(capacity, h[..n], h[n].msg));
      assert ReceiverStays(h) ==> ReceiverStays(h[..n]) && ParseLines(h[n].msg.lines, h[n].room).alive;
    }
  }
}
