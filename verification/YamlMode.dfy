/**
 The `mode:` rewriter of src/main.rs: one pass over the lines with three flags. The reference says which
 place of the file is edited and how; read and rewrite then form a lens.
 */
module YamlMode {

  import opened Common

  // ---- lines ----------------------------------------------------------------------------------

  /** Unicode White_Space. */
  predicate White(c: char) {
    var n := c as int;
    9 <= n <= 13 || n == 0x20 || n == 0x85 || n == 0xA0 || n == 0x1680 || 0x2000 <= n <= 0x200A
    || n == 0x2028 || n == 0x2029 || n == 0x202F || n == 0x205F || n == 0x3000
  }

  /** Leading white space of a line. */
  function Indent(s: string): (r: string)
    ensures |r| <= |s| && s[..|r|] == r
  {
    if s == "" || !White(s[0]) then "" else [s[0]] + Indent(s[1..])
  }

  function TrimStart(s: string): string { s[|Indent(s)|..] }

  predicate Header(line: string) { "execution:" <= TrimStart(line) }

  predicate TopLevel(line: string) { line != "" && Indent(line) == "" }

  predicate ModeKey(line: string) { "mode:" <= TrimStart(line) }

  lemma {:induction false} TrimOf(white: string, s: string)
    requires (forall i :: 0 <= i < |white| ==> White(white[i])) && (s == "" || !White(s[0]))
    ensures Indent(white + s) == white && TrimStart(white + s) == s
  {
    if white != "" {
      assert (white + s)[1..] == white[1..] + s;
      TrimOf(white[1..], s);
    } else {
      assert white + s == s;
    }
  }

  lemma {:induction false} IndentIsWhite(s: string)
    ensures forall i :: 0 <= i < |Indent(s)| ==> White(Indent(s)[i])
  {
    if s != "" && White(s[0]) { IndentIsWhite(s[1..]); }
  }

  // ---- the place that is edited ------------------------------------------------------------------

  datatype Spot = Replace(i: nat) | Insert(i: nat) | AppendMode | AppendBlock

  function Shift(s: Spot, k: nat): Spot {
    match s case Replace(i) => Replace(i + k) case Insert(i) => Insert(i + k) case _ => s
  }

  /** Scanning the lines, `inside` an execution block or not. */
  function Find(lines: seq<string>, inside: bool): Spot {
    if lines == [] then if inside then AppendMode else AppendBlock
    else if Header(lines[0]) then Shift(Find(lines[1..], true), 1)
    else if inside && TopLevel(lines[0]) then Insert(0)
    else if inside && ModeKey(lines[0]) then Replace(0)
    else Shift(Find(lines[1..], inside), 1)
  }

  /** A line that ends the search inside a block. */
  predicate Decides(line: string) { !Header(line) && (TopLevel(line) || ModeKey(line)) }

  /** A block is open at line `n`: there was a header before it. */
  predicate Opened(lines: seq<string>, inside: bool, n: nat)
    requires n <= |lines|
  {
    inside || exists h :: 0 <= h < n && Header(lines[h])
  }

  predicate Undecided(lines: seq<string>, inside: bool, n: nat)
    requires n <= |lines|
  {
    forall j :: 0 <= j < n && Opened(lines, inside, j) ==> !Decides(lines[j])
  }

  lemma OpenedLater(lines: seq<string>, inside: bool, n: nat)
    requires lines != [] && n <= |lines| - 1
    ensures Opened(lines, inside, n + 1) <==> Opened(lines[1..], inside || Header(lines[0]), n)
  {
    hide Header;
    var rest := lines[1..];
    if Opened(lines, inside, n + 1) && !inside {
      var h :| 0 <= h < n + 1 && Header(lines[h]);
      if h > 0 { assert Header(rest[h - 1]); }
    }
    if !inside && !Header(lines[0]) && Opened(rest, false, n) {
      var h :| 0 <= h < n && Header(rest[h]);
      assert Header(lines[h + 1]);
    }
  }

  lemma UndecidedLater(lines: seq<string>, inside: bool, n: nat)
    requires lines != [] && n <= |lines| - 1 && (inside ==> !Decides(lines[0]))
    requires Undecided(lines[1..], inside || Header(lines[0]), n)
    ensures Undecided(lines, inside, n + 1)
  {
    hide Decides, Opened, Header;
    forall j | 0 <= j < n + 1 && Opened(lines, inside, j) ensures !Decides(lines[j]) {
      if j > 0 { OpenedLater(lines, inside, j - 1); assert lines[j] == lines[1..][j - 1]; } else { OpenedFirst(lines, inside); }
    }
  }

  lemma OpenedFirst(lines: seq<string>, inside: bool)
    ensures Opened(lines, inside, 0) <==> inside
  {
  }

  /** The place found, told without the scan: the first line after a header that is a `mode:` line or
      starts a new top-level key; the end of the file if there is none; a new block if no header. */
  predicate IsPlace(lines: seq<string>, inside: bool, s: Spot) {
    match s
    case Replace(i) => i < |lines| && Opened(lines, inside, i) && Undecided(lines, inside, i) && Decides(lines[i]) && !TopLevel(lines[i])
    case Insert(i) => i < |lines| && Opened(lines, inside, i) && Undecided(lines, inside, i) && Decides(lines[i]) && TopLevel(lines[i])
    case AppendMode => Opened(lines, inside, |lines|) && Undecided(lines, inside, |lines|)
    case AppendBlock => !Opened(lines, inside, |lines|)
  }

  lemma {:induction false} FindMeaning(lines: seq<string>, inside: bool)
    ensures IsPlace(lines, inside, Find(lines, inside))
  {
    if lines != [] {
      hide Header, TopLevel, ModeKey, Opened, Undecided;
      var rest, next := lines[1..], inside || Header(lines[0]);
      var s := Find(rest, next);
      OpenedFirst(lines, inside);
      NothingBefore(lines, inside);
      if Find(lines, inside) == Shift(s, 1) && !(inside && Decides(lines[0])) {
        FindMeaning(rest, next);
        var n := match s case Replace(i) => i case Insert(i) => i case _ => |rest|;
        OpenedLater(lines, inside, n);
        if !s.AppendBlock? { UndecidedLater(lines, inside, n); }
      }
    }
  }

  lemma NothingBefore(lines: seq<string>, inside: bool)
    ensures Undecided(lines, inside, 0)
  {
  }

  // ---- rewriting and reading ---------------------------------------------------------------------

  function ModeLine(mode: string): string { "  mode: " + mode }

  function Edit(lines: seq<string>, s: Spot, mode: string): seq<string>
    requires (s.Replace? ==> s.i < |lines|) && (s.Insert? ==> s.i <= |lines|)
  {
    match s
    case Replace(i) => lines[i := Indent(lines[i]) + "mode: " + mode]
    case Insert(i) => lines[..i] + [ModeLine(mode)] + lines[i..]
    case AppendMode => lines + [ModeLine(mode)]
    case AppendBlock => lines + ["", "execution:", ModeLine(mode)]
  }

  function Rewrite(lines: seq<string>, mode: string): seq<string> {
    FindMeaning(lines, false);
    Edit(lines, Find(lines, false), mode)
  }

  /** The value of the first `mode:` line of an execution block. */
  function Read(lines: seq<string>): Option<string> {
    FindMeaning(lines, false);
    var s := Find(lines, false);
    if s.Replace? then ValueOf(lines[s.i]) else None
  }

  function ValueOf(line: string): Option<string> {
    if ModeKey(line) then Some(TrimStart(TrimStart(line)[5..])) else None
  }

  /** What a mode line is, whichever way it was written. */
  lemma WrittenLine(indent: string, mode: string)
    requires indent != "" && forall i :: 0 <= i < |indent| ==> White(indent[i])
    ensures var l := indent + "mode: " + mode;
            && Indent(l) == indent && Decides(l) && !TopLevel(l) && ValueOf(l) == Some(TrimStart(mode))
  {
    var l, body := indent + "mode: " + mode, "mode: " + mode;
    assert l == indent + body;
    TrimOf(indent, body);
    assert body[..5] == "mode:" && body[5..] == " " + mode;
    assert TrimStart(l) == body;
    var rest := TrimStart(mode);
    NoIndentAfterTrim(mode);
    IndentIsWhite(mode);
    assert " " + mode == (" " + Indent(mode)) + rest;
    TrimOf(" " + Indent(mode), rest);
    assert body[0] == 'm' && "execution:"[0] == 'e';
  }

  lemma {:induction false} NoIndentAfterTrim(s: string)
    ensures var r := TrimStart(s); r == "" || !White(r[0])
  {
    if s != "" && White(s[0]) { NoIndentAfterTrim(s[1..]); }
  }

  /** A place is determined by what it means. */
  lemma PlaceIsUnique(lines: seq<string>, inside: bool, s: Spot)
    requires IsPlace(lines, inside, s)
    ensures Find(lines, inside) == s
  {
    FindMeaning(lines, inside);
    hide Decides, TopLevel, Find;
    var f := Find(lines, inside);
    var n := match s case Replace(i) => i case Insert(i) => i case _ => |lines|;
    var m := match f case Replace(i) => i case Insert(i) => i case _ => |lines|;
    OpenedMore(lines, inside, n, m);
    OpenedMore(lines, inside, m, n);
  }

  lemma OpenedMore(lines: seq<string>, inside: bool, n: nat, m: nat)
    requires n <= m <= |lines| || m <= n <= |lines|
    ensures n <= m && Opened(lines, inside, n) ==> Opened(lines, inside, m)
  {
  }

  /** Editing a block's mode line, or putting one where it belongs, leaves that line as the place. */
  lemma PlaceAfter(lines: seq<string>, i: nat, line: string, lines': seq<string>)
    requires i <= |lines| && Opened(lines, false, i) && Undecided(lines, false, i)
    requires i < |lines'| && lines'[..i] == lines[..i] && lines'[i] == line && Decides(line) && !TopLevel(line)
    ensures Find(lines', false) == Replace(i)
  {
    hide Decides, TopLevel, Header;
    assert forall j :: 0 <= j < i ==> lines'[j] == lines'[..i][j] == lines[..i][j] == lines[j];
    forall j | 0 <= j <= i ensures Opened(lines', false, j) <==> Opened(lines, false, j) {
    }
    PlaceIsUnique(lines', false, Replace(i));
  }

  /** Where the rewritten file has its mode line. */
  function Place(lines: seq<string>): (n: nat)
    ensures Find(lines, false).Replace? ==> n < |lines|
  {
    FindMeaning(lines, false);
    match Find(lines, false) case Replace(i) => i case Insert(i) => i case AppendMode => |lines| case AppendBlock => |lines| + 2
  }

  function NewLine(lines: seq<string>, mode: string): string {
    FindMeaning(lines, false);
    var s := Find(lines, false);
    if s.Replace? then Indent(lines[s.i]) + "mode: " + mode else ModeLine(mode)
  }

  lemma BlockOpens(lines: seq<string>)
    requires IsPlace(lines, false, AppendBlock)
    ensures var ls := lines + ["", "execution:"]; Opened(ls, false, |lines| + 2) && Undecided(ls, false, |lines| + 2)
  {
    var ls := lines + ["", "execution:"];
    TrimOf("", "execution:");
    assert "" + "execution:" == "execution:";
    assert Header(ls[|lines| + 1]);
    hide Decides, TopLevel;
    assert !Header("") by { assert Indent("") == ""; }
    hide Header;
    forall j | 0 <= j < |lines| + 2 ensures !Opened(ls, false, j) {
      forall h | 0 <= h < j ensures !Header(ls[h]) {
        if h < |lines| { assert ls[h] == lines[h]; }
      }
    }
  }

  /** The lines before and after the mode line of the rewritten file: none depends on the new mode. */
  function Before(lines: seq<string>): seq<string> {
    FindMeaning(lines, false);
    match Find(lines, false)
    case Replace(i) => lines[..i]
    case Insert(i) => lines[..i]
    case AppendMode => lines
    case AppendBlock => lines + ["", "execution:"]
  }

  function Behind(lines: seq<string>): seq<string> {
    FindMeaning(lines, false);
    match Find(lines, false)
    case Replace(i) => lines[i + 1..]
    case Insert(i) => lines[i..]
    case _ => []
  }

  /** Every other line keeps its text and order: the file is the old one with one line replaced, one
      line inserted, or one line (or a fresh block) appended. */
  lemma OtherLinesKept(lines: seq<string>, mode: string)
    ensures Rewrite(lines, mode) == Before(lines) + [NewLine(lines, mode)] + Behind(lines)
    ensures |Before(lines)| == Place(lines)
    ensures var s, n := Find(lines, false), Place(lines);
            if s.Replace? then n < |lines| && lines == Before(lines) + [lines[n]] + Behind(lines)
            else if s.AppendBlock? then lines + ["", "execution:"] == Before(lines) + Behind(lines)
            else lines == Before(lines) + Behind(lines)
  {
    FindMeaning(lines, false);
    hide Find, Opened, Undecided, Decides, TopLevel, Indent;
    var s := Find(lines, false);
    if s.Replace? { assert lines == lines[..s.i] + [lines[s.i]] + lines[s.i + 1..]; }
  }

  /** The rewritten file's place is the line just written, and that line reads as the mode. */
  lemma RewrittenPlace(lines: seq<string>, mode: string)
    ensures Find(Rewrite(lines, mode), false) == Replace(Place(lines))
    ensures var l := NewLine(lines, mode);
            && Place(lines) < |Rewrite(lines, mode)| && Rewrite(lines, mode)[Place(lines)] == l && ValueOf(l) == Some(TrimStart(mode))
            && l == Indent(l) + "mode: " + mode
    ensures Indent(NewLine(lines, mode)) == if Find(lines, false).Replace? then Indent(lines[Place(lines)]) else "  "
  {
    FindMeaning(lines, false);
    OtherLinesKept(lines, mode);
    var s, r, p := Find(lines, false), Rewrite(lines, mode), Place(lines);
    if s.Replace? {
      IndentIsWhite(lines[s.i]);
      IndentedMode(lines[s.i]);
      WrittenLine(Indent(lines[s.i]), mode);
    } else {
      assert "  mode: " + mode == "  " + "mode: " + mode;
      WrittenLine("  ", mode);
    }
    hide Find, Decides, TopLevel, Indent, ValueOf, Rewrite;
    var l := NewLine(lines, mode);
    assert r[..p] == Before(lines) && r[p] == l;
    if s.AppendBlock? {
      BlockOpens(lines);
      PlaceAfter(lines + ["", "execution:"], p, l, r);
    } else {
      PlaceAfter(lines, p, l, r);
    }
  }

  /** A `mode:` line that is not top-level is indented. */
  lemma IndentedMode(line: string)
    requires Decides(line) && !TopLevel(line)
    ensures Indent(line) != ""
  {
  }

  /** Reading after a rewrite gives the written mode, up to leading white space. */
  lemma ReadAfterRewrite(lines: seq<string>, mode: string)
    ensures Read(Rewrite(lines, mode)) == Some(TrimStart(mode))
    ensures (mode == "" || !White(mode[0])) ==> Read(Rewrite(lines, mode)) == Some(mode)
  {
    RewrittenPlace(lines, mode);
    hide Find, Rewrite, ValueOf;
  }

  lemma RewriteAt(lines: seq<string>, p: nat, mode: string)
    requires Find(lines, false) == Replace(p)
    ensures p < |lines| && Rewrite(lines, mode) == lines[p := Indent(lines[p]) + "mode: " + mode]
  {
    FindMeaning(lines, false);
    hide Find, Indent;
  }

  lemma SwapMiddle(pre: seq<string>, a: string, b: string, post: seq<string>)
    ensures (pre + [a] + post)[|pre| := b] == pre + [b] + post
  {
  }

  /** The last rewrite wins, whatever was written before. */
  lemma RewriteTwice(lines: seq<string>, a: string, b: string)
    ensures Rewrite(Rewrite(lines, a), b) == Rewrite(lines, b)
  {
    hide Find, Rewrite, ValueOf, Indent, Before, Behind, NewLine, Place;
    RewrittenPlace(lines, a);
    RewrittenPlace(lines, b);
    OtherLinesKept(lines, a);
    OtherLinesKept(lines, b);
    RewriteAt(Rewrite(lines, a), Place(lines), b);
    SwapMiddle(Before(lines), NewLine(lines, a), NewLine(lines, b), Behind(lines));
  }

  lemma RewriteIdempotent(lines: seq<string>, mode: string)
    ensures Rewrite(Rewrite(lines, mode), mode) == Rewrite(lines, mode)
  {
    RewriteTwice(lines, mode, mode);
  }

  /** Writing back what was read changes nothing exactly when the line was spelled the way the rewriter
      spells it: one space after the colon. */
  lemma {:induction false} RewriteWhatWasRead(lines: seq<string>)
    requires Read(lines).Some?
    ensures Find(lines, false).Replace? && Place(lines) < |lines|
    ensures var v, line := Read(lines).value, lines[Place(lines)];
            Rewrite(lines, v) == lines <==> TrimStart(line) == "mode: " + v
  {
    FindMeaning(lines, false);
    hide Opened, Undecided, Find, Decides, TopLevel, ValueOf, TrimStart, Indent, Rewrite, IsPlace;
    var i, v := Place(lines), Read(lines).value;
    RewriteAt(lines, i, v);
    Spelled(lines[i], v);
    var written := Indent(lines[i]) + "mode: " + v;
    assert lines[i := written] == lines <==> written == lines[i];
  }

  lemma Spelled(line: string, v: string)
    ensures Indent(line) + "mode: " + v == line <==> TrimStart(line) == "mode: " + v
  {
    assert line == Indent(line) + TrimStart(line);
    var written := Indent(line) + "mode: " + v;
    assert written[|Indent(line)|..] == "mode: " + v;
  }

  // ---- the text --------------------------------------------------------------------------------

  /** Each line with its newline, as the rewriter pushes them. */
  function Join(lines: seq<string>): string {
    if lines == [] then "" else Join(lines[..|lines| - 1]) + lines[|lines| - 1] + "\n"
  }

  lemma {:induction false} JoinConcat(a: seq<string>, b: seq<string>)
    ensures Join(a + b) == Join(a) + Join(b)
  {
    if b == [] {
      assert a + b == a;
    } else {
      assert (a + b)[..|a + b| - 1] == a + b[..|b| - 1];
      JoinConcat(a, b[..|b| - 1]);
    }
  }

  function Breaks(text: string): (n: nat)
    ensures n <= |text| && (n < |text| ==> text[n] == '\n')
    ensures forall i :: 0 <= i < n ==> text[i] != '\n'
  {
    if text == "" || text[0] == '\n' then 0 else 1 + Breaks(text[1..])
  }

  function StripCr(line: string): string {
    if line != "" && line[|line| - 1] == '\r' then line[..|line| - 1] else line
  }

  /** `str::lines`: a carriage return goes with the newline it precedes, and only then. */
  function Lines(text: string): seq<string>
    decreases |text|
  {
    if text == "" then []
    else
      var n := Breaks(text);
      if n == |text| then [text] else [StripCr(text[..n])] + Lines(text[n + 1..])
  }

  /** The rewriter on text. */
  method RewriteYamlMode(content: string, mode: string) returns (out: string)
    ensures out == Join(Rewrite(Lines(content), mode))
  {
    hide Header, ModeKey, TopLevel, Indent, Join, Edit, Find;
    var lines := Lines(content);
    var done: seq<string> := [];
    EmptyJoin();
    out := "";
    var insideExec, modeWritten, sawHeader, k := false, false, false, 0;
    ghost var spot := Find(lines, false);
    FindMeaning(lines, false);
    hide IsPlace;
    while k < |lines|
      invariant 0 <= k <= |lines| && out == Join(done)
      invariant !modeWritten ==> done == lines[..k] && spot == Shift(Find(lines[k..], insideExec), k) && (sawHeader <==> insideExec)
      invariant modeWritten ==> (spot.Replace? || spot.Insert?) && spot.i < k && done == Edit(lines[..k], spot, mode)
    {
      hide Shift;
      var line := lines[k];
      assert lines[k..][1..] == lines[k + 1..] && lines[..k + 1] == lines[..k] + [line];
      FindStep(lines[k..], insideExec, k);
      if modeWritten {
        EditLater(lines[..k], spot, mode, line);
      }
      if Header(line) {
        insideExec := true;
        sawHeader := true;
      } else if insideExec && TopLevel(line) {
        if !modeWritten {
          EditNow(lines[..k], line, mode);
          done := Push(done, ModeLine(mode));
          out := out + ModeLine(mode) + "\n";
          modeWritten := true;
        }
        insideExec := false;
      } else if insideExec && !modeWritten && ModeKey(line) {
        EditNow(lines[..k], line, mode);
        line := Indent(line) + "mode: " + mode;
        modeWritten := true;
      }
      done := Push(done, line);
      out := out + line + "\n";
      k := k + 1;
    }
    assert lines[..k] == lines && lines[k..] == [];
    EditAtEnd(lines, mode, insideExec);
    if !modeWritten {
      if !sawHeader {
        done := Push(Push(done, ""), "execution:");
        out := out + "" + "\n" + "execution:" + "\n";
      }
      done := Push(done, ModeLine(mode));
      out := out + ModeLine(mode) + "\n";
    }
  }

  /** One more line; its text ends up at the end of the joined text. */
  function Push(lines: seq<string>, line: string): (r: seq<string>)
    ensures r == lines + [line] && Join(r) == Join(lines) + line + "\n"
  {
    assert (lines + [line])[..|lines|] == lines;
    lines + [line]
  }

  lemma EmptyJoin()
    ensures Join([]) == ""
  {
  }

  lemma FindStep(lines: seq<string>, inside: bool, k: nat)
    requires lines != []
    ensures Shift(Find(lines, inside), k) ==
            if Header(lines[0]) then Shift(Find(lines[1..], true), k + 1)
            else if inside && TopLevel(lines[0]) then Insert(k)
            else if inside && ModeKey(lines[0]) then Replace(k)
            else Shift(Find(lines[1..], inside), k + 1)
  {
    hide Header, TopLevel, ModeKey;
  }

  lemma EditLater(lines: seq<string>, s: Spot, mode: string, line: string)
    requires (s.Replace? || s.Insert?) && s.i < |lines|
    ensures Edit(lines + [line], s, mode) == Edit(lines, s, mode) + [line]
  {
  }

  lemma EditNow(lines: seq<string>, line: string, mode: string)
    ensures Edit(lines + [line], Insert(|lines|), mode) == lines + [ModeLine(mode)] + [line]
    ensures Edit(lines + [line], Replace(|lines|), mode) == lines + [Indent(line) + "mode: " + mode]
  {
  }

  lemma EditAtEnd(lines: seq<string>, mode: string, inside: bool)
    ensures Shift(Find([], inside), |lines|) == if inside then AppendMode else AppendBlock
    ensures Edit(lines, AppendMode, mode) == lines + [ModeLine(mode)]
    ensures Edit(lines, AppendBlock, mode) == lines + [""] + ["execution:"] + [ModeLine(mode)]
  {
  }

  // ---- from lines to text ----------------------------------------------------------------------

  predicate NoBreak(line: string) { forall i :: 0 <= i < |line| ==> line[i] != '\n' }

  predicate NoBreaks(lines: seq<string>) { forall i :: 0 <= i < |lines| ==> NoBreak(lines[i]) }

  /** A line that survives being joined and split again. */
  predicate Clean(line: string) { StripCr(line) == line }

  predicate AllClean(lines: seq<string>) { forall i :: 0 <= i < |lines| ==> Clean(lines[i]) }

  function StripAll(lines: seq<string>): (r: seq<string>)
    ensures |r| == |lines| && forall i :: 0 <= i < |r| ==> r[i] == StripCr(lines[i])
  {
    if lines == [] then [] else [StripCr(lines[0])] + StripAll(lines[1..])
  }

  lemma {:induction false} BreaksAt(line: string, rest: string)
    requires forall i :: 0 <= i < |line| ==> line[i] != '\n'
    ensures Breaks(line + "\n" + rest) == |line|
  {
    var t := line + "\n" + rest;
    if line != "" {
      assert t[1..] == line[1..] + "\n" + rest;
      BreaksAt(line[1..], rest);
    }
  }

  /** Joining and splitting again takes one trailing carriage return off every line. */
  lemma {:induction false} LinesOfJoin(lines: seq<string>)
    requires NoBreaks(lines)
    ensures Lines(Join(lines)) == StripAll(lines)
  {
    if lines != [] {
      hide StripCr;
      var rest := lines[1..];
      JoinConcat([lines[0]], rest);
      assert [lines[0]] + rest == lines && [lines[0]][..0] == [];
      assert Join([lines[0]]) == lines[0] + "\n";
      var t := lines[0] + "\n" + Join(rest);
      BreaksAt(lines[0], Join(rest));
      assert t[..|lines[0]|] == lines[0] && t[|lines[0]| + 1..] == Join(rest);
      LinesOfJoin(rest);
    }
  }

  lemma {:induction false} LinesHaveNoBreaks(text: string)
    ensures NoBreaks(Lines(text))
    decreases |text|
  {
    if text != "" && Breaks(text) < |text| {
      LinesHaveNoBreaks(text[Breaks(text) + 1..]);
    }
  }

  /** Trailing carriage returns do not matter to the scan. */
  lemma {:induction false} IndentStrips(line: string)
    ensures if Indent(line) == line then Indent(StripCr(line)) == StripCr(line) else Indent(StripCr(line)) == Indent(line)
  {
    if line != "" && White(line[0]) && |line| > 1 {
      IndentStrips(line[1..]);
      assert StripCr(line) == [line[0]] + StripCr(line[1..]);
      assert StripCr(line)[1..] == StripCr(line[1..]);
      assert Indent(line) == line <==> Indent(line[1..]) == line[1..];
    }
  }

  lemma TopLevelStrips(line: string)
    ensures TopLevel(StripCr(line)) == TopLevel(line)
  {
    IndentStrips(line);
    if line != "" && !White(line[0]) { assert StripCr(line) != "" && StripCr(line)[0] == line[0]; }
  }

  lemma ScanStrips(line: string)
    ensures var l := StripCr(line); Header(l) == Header(line) && TopLevel(l) == TopLevel(line) && ModeKey(l) == ModeKey(line)
  {
    IndentStrips(line);
    TopLevelStrips(line);
    var t, u := TrimStart(line), TrimStart(StripCr(line));
    hide Indent, TopLevel;
    if Indent(line) != line {
      assert u == StripCr(t);
      assert ":" == "mode:"[4..] == "execution:"[9..];
      assert "mode:" <= t ==> t[4] == ':';
      assert "execution:" <= t ==> t[9] == ':';
    }
  }

  lemma {:induction false} FindStrips(lines: seq<string>, inside: bool)
    ensures Find(StripAll(lines), inside) == Find(lines, inside)
  {
    if lines != [] {
      hide Header, TopLevel, ModeKey, StripCr;
      ScanStrips(lines[0]);
      FindStrips(lines[1..], inside);
      FindStrips(lines[1..], true);
      assert StripAll(lines)[1..] == StripAll(lines[1..]);
    }
  }

  function RewriteText(content: string, mode: string): string { Join(Rewrite(Lines(content), mode)) }

  lemma NewLineIsClean(lines: seq<string>, mode: string)
    requires NoBreaks(lines) && NoBreak(mode) && Clean(mode)
    ensures NoBreak(NewLine(lines, mode)) && Clean(NewLine(lines, mode))
  {
    hide Find, Decides, TopLevel, Opened, Undecided;
    FindMeaning(lines, false);
    var l := NewLine(lines, mode);
    assert mode == "" ==> l[|l| - 1] == ' ';
  }

  lemma KeptNoBreaks(lines: seq<string>)
    requires NoBreaks(lines)
    ensures NoBreaks(Before(lines)) && NoBreaks(Behind(lines))
  {
    hide Find, NoBreak, Opened, Undecided, Decides, TopLevel;
    FindMeaning(lines, false);
    assert NoBreak("") && NoBreak("execution:") by { NoBreakText(); }
  }

  lemma NoBreakText()
    ensures NoBreak("") && NoBreak("execution:")
  {
  }

  lemma WrittenIsClean(lines: seq<string>, mode: string)
    requires NoBreaks(lines) && NoBreak(mode) && Clean(mode)
    ensures Clean(NewLine(lines, mode)) && NoBreaks(Rewrite(lines, mode))
  {
    OtherLinesKept(lines, mode);
    NewLineIsClean(lines, mode);
    KeptNoBreaks(lines);
    hide NoBreak, Rewrite, Before, Behind, NewLine, Find, StripCr, Place;
  }

  /** What the second of two rewrites of a text works on, and gives. */
  lemma SecondRewrite(lines: seq<string>, a: string, b: string)
    requires NoBreaks(lines) && NoBreak(a) && Clean(a)
    ensures Rewrite(Lines(Join(Rewrite(lines, a))), b) == StripAll(Before(lines)) + [NewLine(lines, b)] + StripAll(Behind(lines))
  {
    hide Find, Rewrite, ValueOf, Indent, Before, Behind, NewLine, Place, StripCr, NoBreaks, Lines, Join;
    var r := Rewrite(lines, a);
    WrittenIsClean(lines, a);
    LinesOfJoin(r);
    FindStrips(r, false);
    RewrittenPlace(lines, a);
    RewrittenPlace(lines, b);
    OtherLinesKept(lines, a);
    StripMiddle(Before(lines), NewLine(lines, a), Behind(lines));
    RewriteAt(StripAll(r), Place(lines), b);
    SwapMiddle(StripAll(Before(lines)), NewLine(lines, a), NewLine(lines, b), StripAll(Behind(lines)));
  }

  lemma StripMiddle(pre: seq<string>, x: string, post: seq<string>)
    requires Clean(x)
    ensures StripAll(pre + [x] + post) == StripAll(pre) + [x] + StripAll(post)
  {
    hide StripCr;
  }

  lemma JoinLength(lines: seq<string>)
    requires lines != []
    ensures |Join(lines)| == |Join(lines[..|lines| - 1])| + |lines[|lines| - 1]| + 1
  {
  }

  lemma AllCleanSnoc(lines: seq<string>)
    requires lines != []
    ensures AllClean(lines) <==> AllClean(lines[..|lines| - 1]) && Clean(lines[|lines| - 1])
  {
    hide Clean;
    var n := |lines| - 1;
    assert AllClean(lines[..n]) ==> forall i :: 0 <= i < n ==> lines[i] == lines[..n][i] && Clean(lines[i]);
  }

  lemma StripLength(line: string)
    ensures |StripCr(line)| <= |line| && (|StripCr(line)| == |line| <==> Clean(line))
  {
  }

  lemma StripAllSnoc(lines: seq<string>)
    requires lines != []
    ensures var n := |lines| - 1;
            StripAll(lines) != [] && StripAll(lines)[..|StripAll(lines)| - 1] == StripAll(lines[..n])
            && StripAll(lines)[|StripAll(lines)| - 1] == StripCr(lines[n])
  {
    hide StripCr;
  }

  /** Stripping shortens the joined text exactly when some line is not clean. */
  lemma {:induction false} StripShortens(lines: seq<string>)
    ensures |Join(StripAll(lines))| <= |Join(lines)|
    ensures |Join(StripAll(lines))| == |Join(lines)| <==> AllClean(lines)
  {
    if lines == [] {
      assert StripAll(lines) == [];
    } else {
      hide *;
      var n := |lines| - 1;
      StripAllSnoc(lines);
      StripShortens(lines[..n]);
      StripLength(lines[n]);
      JoinLength(lines);
      JoinLength(StripAll(lines));
      AllCleanSnoc(lines);
    }
  }

  /** On text the last rewrite wins, and so the rewrite is idempotent, exactly when no line it keeps ends
      in a carriage return of its own. */
  lemma {:induction false} TextRewriteTwiceIff(content: string, a: string, b: string)
    requires NoBreak(a) && Clean(a)
    ensures RewriteText(RewriteText(content, a), b) == RewriteText(content, b) <==>
            AllClean(Before(Lines(content))) && AllClean(Behind(Lines(content)))
  {
    var lines := Lines(content);
    LinesHaveNoBreaks(content);
    hide Find, Rewrite, Before, Behind, NewLine, Lines, NoBreaks, Join, StripCr, AllClean;
    var pre, x, post := Before(lines), NewLine(lines, b), Behind(lines);
    SecondRewrite(lines, a, b);
    OtherLinesKept(lines, b);
    JoinMiddle(pre, x, post);
    JoinMiddle(StripAll(pre), x, StripAll(post));
    StripShortens(pre);
    StripShortens(post);
    if AllClean(pre) && AllClean(post) { CleanStays(pre); CleanStays(post); }
  }

  lemma CleanStays(lines: seq<string>)
    requires AllClean(lines)
    ensures StripAll(lines) == lines
  {
  }

  lemma JoinMiddle(pre: seq<string>, x: string, post: seq<string>)
    ensures Join(pre + [x] + post) == Join(pre) + Join([x]) + Join(post)
  {
    hide Join;
    JoinConcat(pre + [x], post);
    JoinConcat(pre, [x]);
  }

  /** Reading the rewritten text gives the mode back, whatever the other lines are. */
  lemma TextReadAfterRewrite(content: string, mode: string)
    requires NoBreak(mode) && Clean(mode)
    ensures Read(Lines(RewriteText(content, mode))) == Some(TrimStart(mode))
  {
    var lines := Lines(content);
    LinesHaveNoBreaks(content);
    hide Find, Rewrite, ValueOf, Indent, Before, Behind, NewLine, Place, StripCr, NoBreaks, Lines, Join, TrimStart;
    WrittenIsClean(lines, mode);
    LinesOfJoin(Rewrite(lines, mode));
    FindStrips(Rewrite(lines, mode), false);
    RewrittenPlace(lines, mode);
  }

  /** The smallest such text: a kept line that is one carriage return loses it at the next rewrite, so the
      second rewrite of this text differs from rewriting it once, whatever the modes. */
  lemma CarriageReturnsAreEaten(a: string, b: string)
    requires NoBreak(a) && Clean(a)
    ensures var c := "\r\r\n"; RewriteText(RewriteText(c, a), b) != RewriteText(c, b)
  {
    var c := "\r\r\n";
    assert c[1..] == "\r\n" && "\r\n"[1..] == "\n";
    assert Breaks(c) == 2;
    assert c[..2] == "\r\r" && c[3..] == "";
    assert StripCr("\r\r") == "\r";
    assert Lines(c) == ["\r"];
    assert Indent("\r") == "\r" && !Header("\r");
    assert ["\r"][1..] == [];
    assert Find(["\r"], false) == AppendBlock;
    assert Before(["\r"])[0] == "\r" && !Clean("\r");
    TextRewriteTwiceIff(c, a, b);
  }
}
