/** parseHostPsOutput: the instances in what `flatpak ps` prints on the host. */
module HostPs {

  import opened Decimal
  import opened Splitting
  import opened Wrappers

  // ── Dart strings ────────────────────────────────────────────────────────

  predicate Terminator(c: char) {
    c == '\n' || c == '\r'
  }

  function LineHead(s: string): (h: string)
    ensures h <= s && (|h| < |s| ==> Terminator(s[|h|])) && forall i :: 0 <= i < |h| ==> !Terminator(h[i])
  {
    if s == "" || Terminator(s[0]) then "" else [s[0]] + LineHead(s[1..])
  }

  // LineSplitter: lines end at \n, \r or \r\n; nothing follows a final terminator.
  function Lines(s: string): seq<string>
    decreases |s|
  {
    var h := LineHead(s);
    if s == "" then []
    else if |h| == |s| then [s]
    else if s[|h|] == '\r' && |h| + 1 < |s| && s[|h| + 1] == '\n' then [h] + Lines(s[|h| + 2..])
    else [h] + Lines(s[|h| + 1..])
  }

  // What String.trim removes.
  predicate IsWhite(c: char) {
    RegExpSpace(c) || c as int == 0x85
  }

  // What \s matches.
  predicate RegExpSpace(c: char) {
    var n := c as int;
    || 9 <= n <= 13 || n == 32 || n == 0xA0 || n == 0x1680 || 0x2000 <= n <= 0x200A || n == 0x2028 || n == 0x2029
    || n == 0x202F || n == 0x205F || n == 0x3000 || n == 0xFEFF
  }

  function TrimStart(s: string): string {
    if s != "" && IsWhite(s[0]) then TrimStart(s[1..]) else s
  }

  function TrimEnd(s: string): string {
    if s != "" && IsWhite(s[|s| - 1]) then TrimEnd(s[..|s| - 1]) else s
  }

  function Trim(s: string): string {
    TrimEnd(TrimStart(s))
  }

  // split(RegExp(r'\s+')).
  function WordHead(s: string): (h: string)
    ensures h <= s && (|h| < |s| ==> RegExpSpace(s[|h|]))
  {
    if s == "" || RegExpSpace(s[0]) then "" else [s[0]] + WordHead(s[1..])
  }

  function SkipSpaces(s: string): (r: string)
    ensures |r| <= |s|
  {
    if s != "" && RegExpSpace(s[0]) then SkipSpaces(s[1..]) else s
  }

  function Words(s: string): (words: seq<string>)
    ensures |words| > 0
    decreases |s|
  {
    var h := WordHead(s);
    if |h| == |s| then [s] else [h] + Words(SkipSpaces(s[|h| + 1..]))
  }

  const MAX_INT := 0x8000_0000_0000_0000

  predicate IsHexDigit(c: char) {
    IsDigit(c) || 'a' <= c <= 'f' || 'A' <= c <= 'F'
  }

  function HexDigitValue(c: char): (d: nat)
    requires IsHexDigit(c)
    ensures d < 16
  {
    if IsDigit(c) then DigitValue(c)
    else if 'a' <= c <= 'f' then 10 + (c as int - 'a' as int)
    else 10 + (c as int - 'A' as int)
  }

  predicate AllHexDigits(s: string) {
    forall i :: 0 <= i < |s| ==> IsHexDigit(s[i])
  }

  function HexValue(s: string): nat
    requires AllHexDigits(s)
  {
    if s == "" then 0 else 16 * HexValue(s[..|s| - 1]) + HexDigitValue(s[|s| - 1])
  }

  function InRange(n: int): Option<int> {
    if -MAX_INT <= n < MAX_INT then Some(n) else None
  }

  function DecimalInt(ds: string, negative: bool): Option<int> {
    if ds == "" || !AllDigits(ds) then None
    else InRange(if negative then -(ValueOf(ds) as int) else ValueOf(ds))
  }

  // A hexadecimal numeral without a minus sign may use all 64 bits.
  function HexInt(hs: string, negative: bool): Option<int> {
    if hs == "" || !AllHexDigits(hs) then None
    else if negative then InRange(-(HexValue(hs) as int))
    else if HexValue(hs) < MAX_INT then Some(HexValue(hs))
    else if HexValue(hs) < 2 * MAX_INT then Some(HexValue(hs) - 2 * MAX_INT)
    else None
  }

  function Unsigned(t: string): string {
    if t != "" && (t[0] == '-' || t[0] == '+') then t[1..] else t
  }

  // int.tryParse: white space around, a sign, and decimal digits or 0x and
  // hexadecimal ones.
  function TryParse(s: string): Option<int> {
    var t := Trim(s);
    var u := Unsigned(t);
    var negative := t != "" && t[0] == '-';
    if |u| >= 2 && u[0] == '0' && (u[1] == 'x' || u[1] == 'X') then HexInt(u[2..], negative)
    else DecimalInt(u, negative)
  }

  // ── The parser ──────────────────────────────────────────────────────────

  datatype Instance = Instance(
    appId: string, instanceId: string, arch: string, branch: string, commit: string, runtime: string, pid: int,
    childPid: int, isRunning: bool)

  function RuntimeRef(id: string, arch: string, branch: string): string {
    if id == "" then "" else "runtime/" + id + "/" + arch + "/" + branch
  }

  function TrimAll(cells: seq<string>): (trimmed: seq<string>)
    ensures |trimmed| == |cells| && forall i :: 0 <= i < |cells| ==> trimmed[i] == Trim(cells[i])
  {
    seq(|cells|, i requires 0 <= i < |cells| => Trim(cells[i]))
  }

  function Columns(row: string): seq<string> {
    if '\t' in row then TrimAll(Split(row, '\t')) else Words(Trim(row))
  }

  function FromColumns(cols: seq<string>): Option<Instance> {
    if |cols| != 9 then None
    else
      var pid, childPid := TryParse(cols[7]), TryParse(cols[8]);
      if pid.None? || childPid.None? then None
      else Some(Instance(cols[0], cols[1], cols[2], cols[3], cols[4], RuntimeRef(cols[5], cols[2], cols[6]),
                         pid.value, childPid.value, true))
  }

  // The instance on one line, if the line has one.
  function FromLine(line: string): Option<Instance> {
    var row := if line != "" && line[|line| - 1] == '\r' then line[..|line| - 1] else line;
    if Trim(row) == "" then None else FromColumns(Columns(row))
  }

  function Collected(lines: seq<string>): seq<Instance> {
    if lines == [] then []
    else
      var last := FromLine(lines[|lines| - 1]);
      Collected(lines[..|lines| - 1]) + if last.Some? then [last.value] else []
  }

  lemma LastCollected(texts: seq<string>, last: string)
    ensures Collected(texts + [last])
      == Collected(texts) + if FromLine(last).Some? then [FromLine(last).value] else []
  {
    assert (texts + [last])[..|texts|] == texts;
  }

  // What the loop does with one line; None is its continue.
  method ReadLine(line: string) returns (o: Option<Instance>)
    ensures o == FromLine(line)
  {
    var row := if line != "" && line[|line| - 1] == '\r' then line[..|line| - 1] else line;
    if Trim(row) == "" {
      return None;
    }
    var cols := if '\t' in row then TrimAll(Split(row, '\t')) else Words(Trim(row));
    if |cols| != 9 {
      return None;
    }
    var pid := TryParse(cols[7]);
    var childPid := TryParse(cols[8]);
    if pid.None? || childPid.None? {
      return None;
    }
    o := Some(Instance(cols[0], cols[1], cols[2], cols[3], cols[4], RuntimeRef(cols[5], cols[2], cols[6]),
                       pid.value, childPid.value, true));
  }

  // The loop, one line further.
  method AddLine(instances: seq<Instance>, lines: seq<string>, i: nat) returns (more: seq<Instance>)
    requires i < |lines| && instances == Collected(lines[..i])
    ensures more == Collected(lines[..i + 1])
  {
    var instance := ReadLine(lines[i]);
    LastCollected(lines[..i], lines[i]);
    assert lines[..i + 1] == lines[..i] + [lines[i]];
    more := if instance.Some? then instances + [instance.value] else instances;
  }

  method ParseHostPsOutput(stdout: string) returns (instances: seq<Instance>)
    ensures instances == Collected(Lines(stdout))
  {
    instances := ReadLines(Lines(stdout));
  }

  method ReadLines(lines: seq<string>) returns (instances: seq<Instance>)
    ensures instances == Collected(lines)
  {
    instances := [];
    for i := 0 to |lines|
      invariant instances == Collected(lines[..i])
    {
      instances := AddLine(instances, lines, i);
    }
    assert lines[..|lines|] == lines;
  }

  // ── The printer ─────────────────────────────────────────────────────────

  // A running instance as flatpak ps knows it: the runtime is two cells.
  datatype Running = Running(
    appId: string, instanceId: string, arch: string, branch: string, commit: string, runtimeId: string,
    runtimeBranch: string, pid: int, childPid: int)

  function PrintInt(n: int): string {
    if n < 0 then "-" + Print(-n) else Print(n)
  }

  function Cells(r: Running): (cells: seq<string>)
    ensures |cells| == 9
  {
    [r.appId, r.instanceId, r.arch, r.branch, r.commit, r.runtimeId, r.runtimeBranch, PrintInt(r.pid), PrintInt(r.childPid)]
  }

  // No tab, no line break, no outer white space; a cell may be empty.
  predicate CleanCell(c: string) {
    && (forall i :: 0 <= i < |c| ==> c[i] != '\t' && !Terminator(c[i]))
    && (c != "" ==> !IsWhite(c[0]) && !IsWhite(c[|c| - 1]))
  }

  predicate Printable(r: Running) {
    && CleanCell(r.appId) && CleanCell(r.instanceId) && CleanCell(r.arch) && CleanCell(r.branch) && CleanCell(r.commit)
    && CleanCell(r.runtimeId) && CleanCell(r.runtimeBranch)
    && -0x8000_0000_0000_0000 <= r.pid < 0x8000_0000_0000_0000
    && -0x8000_0000_0000_0000 <= r.childPid < 0x8000_0000_0000_0000
  }

  function Shown(r: Running): Instance {
    Instance(r.appId, r.instanceId, r.arch, r.branch, r.commit, RuntimeRef(r.runtimeId, r.arch, r.runtimeBranch),
             r.pid, r.childPid, true)
  }

  lemma TrimClean(c: string)
    requires c != "" ==> !IsWhite(c[0]) && !IsWhite(c[|c| - 1])
    ensures Trim(c) == c
  {
    assert TrimStart(c) == c;
  }

  lemma NumeralIsClean(s: string)
    requires s != "" && forall i :: 0 <= i < |s| ==> IsDigit(s[i]) || s[i] == '-'
    ensures CleanCell(s) && Trim(s) == s
  {
    TrimClean(s);
  }

  lemma PrintedNumeral(n: int)
    ensures var s, ds := PrintInt(n), Print(if n < 0 then -n else n);
      && Unsigned(s) == ds && s != "" && (s[0] == '-' <==> n < 0)
      && forall i :: 0 <= i < |s| ==> IsDigit(s[i]) || s[i] == '-'
  {
    var ds := Print(if n < 0 then -n else n);
    assert IsDigit(ds[0]);
    assert forall i :: 0 <= i < |ds| ==> IsDigit(ds[i]);
  }

  // A printed number is read back exactly when it fits a signed 64-bit integer.
  lemma ParsePrinted(n: int)
    ensures TryParse(PrintInt(n)) == if -0x8000_0000_0000_0000 <= n < 0x8000_0000_0000_0000 then Some(n) else None
    ensures CleanCell(PrintInt(n)) && PrintInt(n) != ""
  {
    var ds := Print(if n < 0 then -n else n);
    PrintRoundTrip(if n < 0 then -n else n);
    PrintedNumeral(n);
    NumeralIsClean(PrintInt(n));
    assert |ds| > 1 ==> IsDigit(ds[1]);
  }

  predicate OneLine(s: string) {
    forall i :: 0 <= i < |s| ==> !Terminator(s[i])
  }

  predicate Blank(s: string) {
    forall i :: 0 <= i < |s| ==> IsWhite(s[i])
  }

  lemma {:induction false} TrimStartBlank(s: string)
    ensures TrimStart(s) == "" <==> Blank(s)
    ensures s != "" && !IsWhite(s[|s| - 1]) ==> TrimStart(s) != "" && TrimStart(s)[|TrimStart(s)| - 1] == s[|s| - 1]
    ensures Blank(TrimStart(s)) ==> Blank(s)
  {
    if s != "" && IsWhite(s[0]) {
      TrimStartBlank(s[1..]);
      assert s == [s[0]] + s[1..];
    }
  }

  lemma {:induction false} TrimEndBlank(s: string)
    ensures TrimEnd(s) == "" <==> Blank(s)
  {
    if s != "" && IsWhite(s[|s| - 1]) {
      TrimEndBlank(s[..|s| - 1]);
      assert s == s[..|s| - 1] + [s[|s| - 1]];
    }
  }

  lemma TrimBlank(s: string)
    ensures Trim(s) == "" <==> Blank(s)
  {
    TrimStartBlank(s);
    TrimEndBlank(TrimStart(s));
  }

  // A row of cells is one line, holds a tab, and holds every cell.
  lemma {:induction false} JoinedCells(cells: seq<string>, k: nat)
    requires k < |cells| && forall i :: 0 <= i < |cells| ==> OneLine(cells[i])
    ensures OneLine(Join(cells, '\t')) && (|cells| > 1 ==> '\t' in Join(cells, '\t'))
    ensures Blank(Join(cells, '\t')) ==> Blank(cells[k])
  {
    var row := Join(cells, '\t');
    if |cells| > 1 {
      var later := Join(cells[1..], '\t');
      JoinedCells(cells[1..], if k == 0 then 0 else k - 1);
      assert row[|cells[0]|] == '\t';
      assert row[..|cells[0]|] == cells[0] && row[|cells[0]| + 1..] == later;
    }
  }

  // Which rows of tab-separated cells are read, and as what: exactly those of nine
  // cells with a number in the last two. Any other row drops out.
  lemma RowShape(cells: seq<string>)
    requires |cells| > 1 && forall i :: 0 <= i < |cells| ==> '\t' !in cells[i] && OneLine(cells[i])
    ensures FromLine(Join(cells, '\t')) == FromColumns(TrimAll(cells))
    ensures FromLine(Join(cells, '\t')).Some? <==>
      |cells| == 9 && TryParse(Trim(cells[7])).Some? && TryParse(Trim(cells[8])).Some?
  {
    var row := Join(cells, '\t');
    SplitJoin(cells, '\t');
    JoinedCells(cells, |cells| - 1);
    TrimBlank(row);
    if Blank(row) && |cells| == 9 {
      TrimBlank(cells[8]);
      assert Trim(cells[8]) == "";
      assert TryParse("") == None;
    }
  }

  lemma CleanRow(cells: seq<string>)
    requires |cells| > 1 && forall i :: 0 <= i < |cells| ==> CleanCell(cells[i])
    ensures FromLine(Join(cells, '\t')) == FromColumns(cells) && OneLine(Join(cells, '\t'))
  {
    forall i | 0 <= i < |cells| ensures '\t' !in cells[i] && OneLine(cells[i]) && Trim(cells[i]) == cells[i] {
      assert CleanCell(cells[i]);
      TrimClean(cells[i]);
    }
    RowShape(cells);
    JoinedCells(cells, 0);
    assert TrimAll(cells) == cells;
  }

  lemma CellsAreRead(r: Running)
    requires -0x8000_0000_0000_0000 <= r.pid < 0x8000_0000_0000_0000
    requires -0x8000_0000_0000_0000 <= r.childPid < 0x8000_0000_0000_0000
    ensures FromColumns(Cells(r)) == Some(Shown(r))
  {
    ParsePrinted(r.pid);
    ParsePrinted(r.childPid);
  }

  // A printed row reads back as its instance, empty cells and all.
  lemma RowRoundTrip(r: Running)
    requires Printable(r)
    ensures FromLine(Join(Cells(r), '\t')) == Some(Shown(r)) && OneLine(Join(Cells(r), '\t'))
    ensures Shown(r).runtime
      == if r.runtimeId == "" then "" else "runtime/" + r.runtimeId + "/" + r.arch + "/" + r.runtimeBranch
    ensures Shown(r) == Instance(r.appId, r.instanceId, r.arch, r.branch, r.commit, Shown(r).runtime, r.pid, r.childPid, true)
  {
    var cells := Cells(r);
    ParsePrinted(r.pid);
    ParsePrinted(r.childPid);
    assert CleanCell(cells[0]) && CleanCell(cells[1]) && CleanCell(cells[2]) && CleanCell(cells[3]) && CleanCell(cells[4]);
    assert CleanCell(cells[5]) && CleanCell(cells[6]) && CleanCell(cells[7]) && CleanCell(cells[8]);
    CleanRow(cells);
    CellsAreRead(r);
  }

  // 0x and hexadecimal digits are read too, and may use all 64 bits.
  lemma ParseHexadecimal(hs: string)
    requires hs != "" && AllHexDigits(hs)
    ensures TryParse("0x" + hs)
      == if HexValue(hs) < 0x8000_0000_0000_0000 then Some(HexValue(hs))
         else if HexValue(hs) < 0x1_0000_0000_0000_0000 then Some(HexValue(hs) - 0x1_0000_0000_0000_0000)
         else None
  {
    var s := "0x" + hs;
    assert s[|s| - 1] == hs[|hs| - 1] && IsHexDigit(hs[|hs| - 1]);
    TrimClean(s);
    assert s[2..] == hs;
  }

  // A carriage return left at the end of a line is not part of it.
  lemma CarriageReturnIsDropped(line: string)
    requires line != "" ==> line[|line| - 1] != '\r'
    ensures FromLine(line + "\r") == FromLine(line)
  {
    assert (line + "\r")[..|line|] == line;
  }

  // ── Whole listings ──────────────────────────────────────────────────────

  // A line of output: an instance, or something that is not a row.
  datatype Line = Row(r: Running) | Junk(text: string)

  ghost predicate LineOk(l: Line) {
    match l
    case Row(r) => Printable(r)
    case Junk(text) => OneLine(text) && FromLine(text) == None
  }

  function TextOf(l: Line): string {
    match l case Row(r) => Join(Cells(r), '\t') case Junk(text) => text
  }

  function Document(lines: seq<Line>, eol: string): string {
    if lines == [] then "" else TextOf(lines[0]) + eol + Document(lines[1..], eol)
  }

  function Rows(lines: seq<Line>): seq<Instance> {
    if lines == [] then []
    else Rows(lines[..|lines| - 1]) + if lines[|lines| - 1].Row? then [Shown(lines[|lines| - 1].r)] else []
  }

  function Texts(lines: seq<Line>): (texts: seq<string>)
    ensures |texts| == |lines| && forall i :: 0 <= i < |lines| ==> texts[i] == TextOf(lines[i])
  {
    seq(|lines|, i requires 0 <= i < |lines| => TextOf(lines[i]))
  }

  lemma FirstText(lines: seq<Line>)
    requires lines != []
    ensures Texts(lines) == [TextOf(lines[0])] + Texts(lines[1..])
  {
  }

  lemma LastText(most: seq<Line>, last: Line)
    ensures Texts(most + [last]) == Texts(most) + [TextOf(last)]
  {
  }

  lemma {:induction false} LineHeadOf(text: string, rest: string)
    requires OneLine(text) && (rest == "" || Terminator(rest[0]))
    ensures LineHead(text + rest) == text
  {
    if text == "" {
      assert text + rest == rest;
    } else {
      assert (text + rest)[1..] == text[1..] + rest;
      LineHeadOf(text[1..], rest);
    }
  }

  lemma FirstLine(text: string, eol: string, rest: string)
    requires OneLine(text) && eol in {"\n", "\r\n"}
    ensures Lines(text + eol + rest) == [text] + Lines(rest)
  {
    var s := text + eol + rest;
    assert s == text + (eol + rest);
    LineHeadOf(text, eol + rest);
    assert s[|text| + |eol|..] == rest;
  }

  lemma {:induction false} DocumentLines(lines: seq<Line>, eol: string)
    requires eol in {"\n", "\r\n"} && forall i :: 0 <= i < |lines| ==> OneLine(TextOf(lines[i]))
    ensures Lines(Document(lines, eol)) == Texts(lines)
  {
    if lines != [] {
      DocumentLines(lines[1..], eol);
      FirstLine(TextOf(lines[0]), eol, Document(lines[1..], eol));
      FirstText(lines);
    }
  }

  lemma LineIsRead(l: Line)
    requires LineOk(l)
    ensures FromLine(TextOf(l)) == if l.Row? then Some(Shown(l.r)) else None
  {
    if l.Row? {
      RowRoundTrip(l.r);
    }
  }

  lemma {:induction false} CollectedRows(lines: seq<Line>)
    requires forall i :: 0 <= i < |lines| ==> LineOk(lines[i])
    ensures Collected(Texts(lines)) == Rows(lines)
  {
    if lines != [] {
      var most, last := lines[..|lines| - 1], lines[|lines| - 1];
      CollectedRows(most);
      OneMoreRow(most, last);
      assert lines == most + [last];
    }
  }

  lemma OneMoreRow(most: seq<Line>, last: Line)
    requires LineOk(last) && Collected(Texts(most)) == Rows(most)
    ensures Collected(Texts(most + [last])) == Rows(most + [last])
  {
    LineIsRead(last);
    LastCollected(Texts(most), TextOf(last));
    LastText(most, last);
    LastRow(most, last);
  }

  lemma LastRow(most: seq<Line>, last: Line)
    ensures Rows(most + [last]) == Rows(most) + if last.Row? then [Shown(last.r)] else []
  {
    assert (most + [last])[..|most|] == most;
  }

  // Printing any list of instances, with any other lines between them, and parsing
  // it back gives those instances in order, with \n and with \r\n.
  lemma ListingRoundTrip(lines: seq<Line>, eol: string)
    requires eol in {"\n", "\r\n"} && forall i :: 0 <= i < |lines| ==> LineOk(lines[i])
    ensures Collected(Lines(Document(lines, eol))) == Rows(lines)
  {
    forall i | 0 <= i < |lines| ensures OneLine(TextOf(lines[i])) {
      assert LineOk(lines[i]);
      if lines[i].Row? {
        RowRoundTrip(lines[i].r);
      }
    }
    DocumentLines(lines, eol);
    CollectedRows(lines);
  }

  // ── Aligned output ──────────────────────────────────────────────────────

  predicate Word(c: string) {
    c != "" && forall i :: 0 <= i < |c| ==> !IsWhite(c[i])
  }

  predicate Gap(g: string) {
    g != "" && forall i :: 0 <= i < |g| ==> g[i] == ' '
  }

  function Align(words: seq<string>, gaps: seq<string>): string
    requires |words| > 0 && |gaps| == |words| - 1
  {
    if |words| == 1 then words[0] else words[0] + gaps[0] + Align(words[1..], gaps[1..])
  }

  lemma {:induction false} WordHeadOf(w: string, rest: string)
    requires forall i :: 0 <= i < |w| ==> !IsWhite(w[i])
    requires rest == "" || RegExpSpace(rest[0])
    ensures WordHead(w + rest) == w
  {
    if w == "" {
      assert w + rest == rest;
    } else {
      assert (w + rest)[1..] == w[1..] + rest;
      WordHeadOf(w[1..], rest);
    }
  }

  lemma {:induction false} SkipGap(g: string, rest: string)
    requires (forall i :: 0 <= i < |g| ==> g[i] == ' ') && rest != "" && !RegExpSpace(rest[0])
    ensures SkipSpaces(g + rest) == rest
  {
    if g == "" {
      assert g + rest == rest;
    } else {
      assert (g + rest)[1..] == g[1..] + rest;
      SkipGap(g[1..], rest);
    }
  }

  lemma {:induction false} AlignedChars(words: seq<string>, gaps: seq<string>)
    requires |words| > 0 && |gaps| == |words| - 1
    requires forall i :: 0 <= i < |words| ==> Word(words[i])
    requires forall i :: 0 <= i < |gaps| ==> Gap(gaps[i])
    ensures var s := Align(words, gaps);
      && s != "" && !IsWhite(s[0]) && !IsWhite(s[|s| - 1])
      && forall i :: 0 <= i < |s| ==> s[i] == ' ' || !IsWhite(s[i])
  {
    assert Word(words[0]);
    if |words| > 1 {
      assert Gap(gaps[0]);
      AlignedChars(words[1..], gaps[1..]);
    }
  }

  lemma {:induction false} AlignedWords(words: seq<string>, gaps: seq<string>)
    requires |words| > 0 && |gaps| == |words| - 1
    requires forall i :: 0 <= i < |words| ==> Word(words[i])
    requires forall i :: 0 <= i < |gaps| ==> Gap(gaps[i])
    ensures Words(Align(words, gaps)) == words
  {
    assert Word(words[0]);
    if |words| == 1 {
      assert words[0] + "" == words[0];
      WordHeadOf(words[0], "");
    } else {
      assert Gap(gaps[0]);
      AlignedWords(words[1..], gaps[1..]);
      AlignedChars(words[1..], gaps[1..]);
      FirstWord(words[0], gaps[0], Align(words[1..], gaps[1..]));
    }
  }

  lemma FirstWord(w: string, g: string, later: string)
    requires Word(w) && Gap(g) && later != "" && !IsWhite(later[0])
    ensures Words(w + g + later) == [w] + Words(later)
  {
    var s := w + g + later;
    assert s == w + (g + later);
    WordHeadOf(w, g + later);
    assert s[|w| + 1..] == g[1..] + later;
    SkipGap(g[1..], later);
  }

  // Output aligned with spaces reads back too, as long as no cell is empty or holds
  // a space: an empty cell would leave no trace between two gaps.
  lemma AlignedRoundTrip(r: Running, gaps: seq<string>)
    requires -0x8000_0000_0000_0000 <= r.pid < 0x8000_0000_0000_0000
    requires -0x8000_0000_0000_0000 <= r.childPid < 0x8000_0000_0000_0000 && |gaps| == 8
    requires forall i :: 0 <= i < |gaps| ==> Gap(gaps[i])
    requires forall i :: 0 <= i < 9 ==> Word(Cells(r)[i])
    ensures FromLine(Align(Cells(r), gaps)) == Some(Shown(r))
  {
    var s := Align(Cells(r), gaps);
    AlignedWords(Cells(r), gaps);
    AlignedChars(Cells(r), gaps);
    TrimClean(s);
    assert '\t' !in s && s[|s| - 1] != '\r';
    assert Columns(s) == Cells(r);
    CellsAreRead(r);
  }
}
