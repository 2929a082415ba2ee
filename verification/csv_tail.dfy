/** Reading only the end of a large ledger (Dashboard/phase2_api_routes.js).

    A file is its text; its bytes are counted by UTF-8 width.  Decoding a slice that cuts a
    character in two gives replacement characters for the bytes left over. */
module CsvTail {
  import opened Sequences
  import opened CsvScanner
  import opened Numbers

  const FULL_READ_BYTES := 1024 * 1024
  const TAIL_MIN_BYTES := 256 * 1024
  const TAIL_BYTES_PER_ROW := 2048
  const HEAD_BYTES := 64 * 1024
  const MAX_LIMIT := 5000

  const REPLACEMENT: char := '\U{FFFD}'

  // ---------------------------------------------------------------- bytes

  function Width(c: char): (n: nat)
    ensures 1 <= n <= 4
  {
    var code := c as int;
    if code < 0x80 then 1 else if code < 0x800 then 2 else if code < 0x1_0000 then 3 else 4
  }

  /** How many code points `n` bytes of UTF-8 can tell apart: 7 bits in one byte, 5n + 1 in more
      (section 3 of RFC 3629). */
  function Capacity(n: nat): nat {
    if n <= 1 then 128 * n else if n == 2 then 2048 else 32 * Capacity(n - 1)
  }

  /** A character takes as few bytes as can hold it. */
  lemma WidthIsLeast(c: char, n: nat)
    ensures (c as int) < Capacity(Width(c))
    ensures n < Width(c) ==> Capacity(n) <= c as int
  {
    assert Capacity(3) == 65_536 && Capacity(4) == 2_097_152;
    assert n == 0 || n == 1 || n == 2 || n == 3 || n >= 4;
  }

  function Size(t: string): nat {
    if t == "" then 0 else Width(t[0]) + Size(t[1..])
  }

  /** The text decoded from the bytes at and after offset `b`: each byte left over from a
      character cut by the offset decodes to one replacement character. */
  function TailText(t: string, b: nat): string {
    if b == 0 || t == "" then t
    else if Width(t[0]) <= b then TailText(t[1..], b - Width(t[0]))
    else seq(Width(t[0]) - b, _ => REPLACEMENT) + t[1..]
  }

  /** The text decoded from the first `b` bytes: a character cut short decodes to one
      replacement character. */
  function HeadText(t: string, b: nat): string {
    if b == 0 || t == "" then ""
    else if Width(t[0]) <= b then [t[0]] + HeadText(t[1..], b - Width(t[0]))
    else [REPLACEMENT]
  }

  // ---------------------------------------------------------------- lines

  /** `indexOf('\n')`, or the length when there is none. */
  function FirstBreak(t: string): (i: nat)
    ensures i <= |t|
    ensures i < |t| ==> t[i] == '\n'
    ensures forall j :: 0 <= j < i ==> t[j] != '\n'
    ensures i < |t| <==> '\n' in t
  {
    if t == "" || t[0] == '\n' then 0 else 1 + FirstBreak(t[1..])
  }

  /** The first line with its line feed. */
  function FirstLine(t: string): string {
    if '\n' in t then t[..FirstBreak(t) + 1] else t
  }

  /** What follows the first line feed. */
  function AfterLine(t: string): string
    requires '\n' in t
  {
    t[FirstBreak(t) + 1..]
  }

  function DropLine(t: string): string {
    if '\n' in t then AfterLine(t) else t
  }

  /** How many lines a text has; nothing after a final line feed is a line. */
  function LineCount(t: string): nat
    decreases |t|
  {
    if t == "" then 0 else if '\n' in t then 1 + LineCount(AfterLine(t)) else 1
  }

  /** Every line, with its line feed, satisfies `p`. */
  predicate EachLine(p: string -> bool, t: string)
    decreases |t|
  {
    t == "" || (p(FirstLine(t)) && ('\n' in t ==> EachLine(p, AfterLine(t))))
  }

  // ---------------------------------------------------------------- the request

  /** `raw` is the parsed query parameter, `None` when it is not a number. */
  function PositiveLimit(raw: Option<int>): nat {
    if raw.None? || raw.value <= 0 then 0 else Min(raw.value, MAX_LIMIT)
  }

  function StripCarriageReturn(t: string): string {
    if t != "" && t[|t| - 1] == '\r' then t[..|t| - 1] else t
  }

  function HeaderText(file: string): string {
    var head := HeadText(file, HEAD_BYTES);
    StripCarriageReturn(head[..FirstBreak(head)])
  }

  function TailBytes(size: nat, limit: nat): nat {
    Min(size, Max(TAIL_MIN_BYTES, limit * TAIL_BYTES_PER_ROW))
  }

  predicate ReadsTail(file: string, limit: nat) {
    limit != 0 && Size(file) > FULL_READ_BYTES && TailBytes(Size(file), limit) < Size(file)
  }

  function TailSlice(file: string, limit: nat): string
    requires ReadsTail(file, limit)
  {
    TailText(file, Size(file) - TailBytes(Size(file), limit))
  }

  /** The text handed to the parser: the whole file, or its header line and its end. */
  function RequestText(file: string, limit: nat): string {
    if ReadsTail(file, limit) then HeaderText(file) + "\n" + DropLine(TailSlice(file, limit)) else file
  }

  datatype Query = Query(symbol: string, route: string, days: Option<int>, limit: Option<int>)

  /** What the filters take from outside: lower-casing, a row's time stamp and the clock. */
  datatype Env = Env(lower: string -> string, timeOf: Row -> Option<int>, now: int)

  function FirstPresent(row: Row, keys: seq<string>): string {
    if keys == [] then "" else if keys[0] in row then row[keys[0]] else FirstPresent(row, keys[1..])
  }

  function RowSymbol(row: Row): string {
    Trim(FirstPresent(row, ["symbol", "Symbol", "BrokerSymbol", "brokerSymbol", "CanonicalSymbol", "canonicalSymbol"]))
  }

  function RowRoute(row: Row): string {
    FirstPresent(row, ["Route", "route", "Strategy", "strategy"])
  }

  /** The rows a query asks for, before its limit is applied. */
  function Matching(rows: seq<Row>, q: Query, env: Env): seq<Row> {
    var symbol := env.lower(Trim(q.symbol));
    var bySymbol := if symbol == "" then rows else Filter((r: Row) => env.lower(RowSymbol(r)) == symbol, rows);
    var route := env.lower(Trim(q.route));
    var byRoute := if route == "" then bySymbol else Filter((r: Row) => env.lower(RowRoute(r)) == route, bySymbol);
    if q.days.None? || q.days.value <= 0 then byRoute else
      var threshold := env.now - q.days.value * 86_400_000;
      Filter((r: Row) => env.timeOf(r).None? || env.timeOf(r).value >= threshold, byRoute)
  }

  function FilterRows(rows: seq<Row>, q: Query, env: Env): seq<Row> {
    var matching := Matching(rows, q, env);
    var n := PositiveLimit(q.limit);
    if n == 0 then matching else LastN(matching, n)
  }

  /** What the endpoint answers, and what it would answer reading the whole file. */
  function Answer(file: string, q: Query, env: Env): seq<Row> {
    FilterRows(CsvTable(RequestText(file, PositiveLimit(q.limit))).rows, q, env)
  }

  function FullAnswer(file: string, q: Query, env: Env): seq<Row> {
    FilterRows(CsvTable(file).rows, q, env)
  }

  // ---------------------------------------------------------------- bytes and lines

  lemma SizeConcat(a: string, b: string)
    ensures Size(a + b) == Size(a) + Size(b)
  {
    if a == "" {
      assert a + b == b;
    } else {
      assert (a + b)[1..] == a[1..] + b;
      SizeConcat(a[1..], b);
    }
  }

  lemma {:induction false} TailPast(a: string, t: string, b: nat)
    requires Size(a) <= b
    ensures TailText(a + t, b) == TailText(t, b - Size(a))
  {
    if a == "" {
      assert a + t == t;
    } else {
      assert (a + t)[1..] == a[1..] + t;
      TailPast(a[1..], t, b - Width(a[0]));
    }
  }

  lemma {:induction false} HeadPast(a: string, t: string, b: nat)
    requires Size(a) <= b
    ensures HeadText(a + t, b) == a + HeadText(t, b - Size(a))
  {
    hide Width;
    if a == "" {
      assert a + t == t;
    } else {
      assert (a + t)[1..] == a[1..] + t;
      HeadPast(a[1..], t, b - Width(a[0]));
      assert a + HeadText(t, b - Size(a)) == [a[0]] + (a[1..] + HeadText(t, b - Size(a)));
    }
  }

  lemma FirstBreakAt(a: string, t: string)
    requires '\n' !in a
    ensures FirstBreak(a + "\n" + t) == |a|
    ensures AfterLine(a + "\n" + t) == t
  {
    var s := a + "\n" + t;
    assert s[|a|] == '\n';
    assert forall j :: 0 <= j < |a| ==> s[j] == a[j];
  }

  lemma {:induction false} LineSplit(t: string)
    requires '\n' in t
    ensures t == FirstLine(t) + AfterLine(t)
    ensures FirstLine(t) == t[..FirstBreak(t)] + "\n"
    ensures Size(t) == Size(FirstLine(t)) + Size(AfterLine(t))
  {
    var k := FirstBreak(t);
    assert t == t[..k + 1] + t[k + 1..];
    SizeConcat(t[..k + 1], t[k + 1..]);
  }

  /** A slice that starts inside a line (its line feed included) is cut back to the next line. */
  lemma {:induction false} TailInLine(a: string, t: string, b: nat)
    requires '\n' !in a && b < Size(a + "\n")
    ensures '\n' in TailText(a + "\n" + t, b)
    ensures AfterLine(TailText(a + "\n" + t, b)) == t
  {
    var s := a + "\n" + t;
    if b == 0 {
      FirstBreakAt(a, t);
    } else if a != "" {
      assert s[1..] == a[1..] + "\n" + t;
      assert (a + "\n")[1..] == a[1..] + "\n";
      if Width(a[0]) <= b {
        TailInLine(a[1..], t, b - Width(a[0]));
      } else {
        var junk := seq(Width(a[0]) - b, _ => REPLACEMENT);
        assert TailText(s, b) == (junk + a[1..]) + "\n" + t;
        FirstBreakAt(junk + a[1..], t);
      }
    }
  }

  /** One step of the cut: either the first line is skipped whole, or it is where the cut falls. */
  lemma {:induction false} TailStep(t: string, b: nat)
    requires '\n' in t
    ensures b < Size(FirstLine(t)) ==> '\n' in TailText(t, b) && DropLine(TailText(t, b)) == AfterLine(t)
    ensures Size(FirstLine(t)) <= b ==> TailText(t, b) == TailText(AfterLine(t), b - Size(FirstLine(t)))
  {
    LineSplit(t);
    if b < Size(FirstLine(t)) {
      TailInLine(t[..FirstBreak(t)], AfterLine(t), b);
    } else {
      TailPast(FirstLine(t), AfterLine(t), b);
    }
  }

  lemma TailWithoutBreak(t: string, b: nat)
    requires '\n' !in t
    ensures '\n' !in TailText(t, b)
  {
  }

  /** No line feed is inside quotes: every line feed ends a record. */
  ghost predicate UnquotedBreaks(t: string) {
    forall i :: 0 <= i < |t| && t[i] == '\n' ==> !Run(t[..i], Start).mode.Quoted?
  }

  lemma OneRecord(t: string)
    requires '\n' !in t
    ensures Run(t, Start).records == []
  {
    if t != "" {
      OneRecord(t[..|t| - 1]);
    }
  }

  /** The line feed before `rest`, the end of `t`, is not inside quotes. */
  predicate UnquotedBefore(t: string, rest: string) {
    |rest| < |t| && !Run(t[..|t| - |rest| - 1], Start).mode.Quoted?
  }

  /** After an unquoted line feed the scanner starts afresh. */
  lemma {:induction false} RunPastBreak(before: string, rest: string)
    requires !Run(before, Start).mode.Quoted?
    ensures AtRecordStart(Run(before + "\n", Start))
    ensures Records(before + "\n" + rest) == Run(before + "\n", Start).records + Records(rest)
  {
    assert (before + "\n")[..|before|] == before;
    RunFromRecordStart(before + "\n", rest);
  }

  lemma {:induction false} UnquotedAfter(line: string, rest: string)
    requires AtRecordStart(Run(line, Start)) && UnquotedBreaks(line + rest)
    ensures UnquotedBreaks(rest)
  {
    forall i | 0 <= i < |rest| && rest[i] == '\n' ensures !Run(rest[..i], Start).mode.Quoted? {
      var k := |line| + i;
      assert (line + rest)[k] == '\n' && (line + rest)[..k] == line + rest[..i];
      RunFromRecordStart(line, rest[..i]);
    }
  }

  /** A first line that ends unquoted is one record, and the rest scans as if it stood alone. */
  lemma {:induction false} RunHeaderLine(t: string)
    requires '\n' in t && UnquotedBefore(t, AfterLine(t))
    ensures var e := Run(FirstLine(t), Start); AtRecordStart(e) && |e.records| == 1
    ensures Records(t) == Run(FirstLine(t), Start).records + Records(AfterLine(t))
  {
    hide FirstBreak;
    LineSplit(t);
    var name := t[..FirstBreak(t)];
    assert t[..|t| - |AfterLine(t)| - 1] == name;
    RunPastBreak(name, AfterLine(t));
    assert (name + "\n")[..|name|] == name;
    OneRecord(name);
  }

  lemma {:induction false} RunFirstLine(t: string)
    requires '\n' in t && UnquotedBreaks(t)
    ensures UnquotedBefore(t, AfterLine(t))
    ensures var e := Run(FirstLine(t), Start); AtRecordStart(e) && |e.records| == 1
    ensures Records(t) == Run(FirstLine(t), Start).records + Records(AfterLine(t))
    ensures UnquotedBreaks(AfterLine(t))
  {
    LineSplit(t);
    assert t[..|t| - |AfterLine(t)| - 1] == t[..FirstBreak(t)];
    RunHeaderLine(t);
    UnquotedAfter(FirstLine(t), AfterLine(t));
  }

  // ---------------------------------------------------------------- the cut

  /** Cutting at a byte offset and dropping the partial line leaves the text after some line feed. */
  lemma {:induction false} CutFollowsBreak(t: string, b: nat) returns (before: string)
    requires '\n' in TailText(t, b)
    ensures var kept := DropLine(TailText(t, b));
      t == before + "\n" + kept && before == t[..|t| - |kept| - 1]
    decreases |t|
  {
    hide FirstBreak, FirstLine, AfterLine, TailText, Size;
    if '\n' !in t {
      TailWithoutBreak(t, b);
    }
    LineSplit(t);
    TailStep(t, b);
    if b < Size(FirstLine(t)) {
      before := t[..FirstBreak(t)];
    } else {
      before := CutFollowsBreak(AfterLine(t), b - Size(FirstLine(t)));
      before := FirstLine(t) + before;
    }
  }

  predicate HasBreak(r: Record) {
    exists i :: 0 <= i < |r| && '\n' in r[i]
  }

  /** The record being read. */
  function Current(s: Scan): Record {
    s.row + [s.field]
  }

  lemma {:induction false} StepBreaks(s: Scan, c: char)
    ensures Step(s, c).mode.Quoted? <==> if c == '"' then !s.mode.Quoted? else s.mode.Quoted?
    ensures HasBreak(Current(Step(s, c))) <==> if c == '\n' then s.mode.Quoted? else HasBreak(Current(s))
  {
    var cur, next := Current(s), Current(Step(s, c));
    assert cur[|s.row|] == s.field;
    if c == ',' && !s.mode.Quoted? {
      assert next == cur + [""];
      assert forall i :: 0 <= i < |cur| ==> next[i] == cur[i];
    } else if c == '\n' && !s.mode.Quoted? {
      assert next == [""];
    } else {
      assert |next| == |cur| && forall i :: 0 <= i < |s.row| ==> next[i] == cur[i];
      assert next[|s.row|] == s.field || next[|s.row|] == s.field + [c];
      if c == '\n' {
        assert '\n' in next[|s.row|];
      } else {
        assert forall i :: 0 <= i < |cur| ==> ('\n' in next[i] <==> '\n' in cur[i]);
      }
    }
  }

  /** Of two scans just one is inside quotes, and just one has a line feed in its current record. */
  predicate Opposed(a: Scan, b: Scan) {
    a.mode.Quoted? != b.mode.Quoted? && HasBreak(Current(a)) != HasBreak(Current(b))
  }

  lemma {:induction false} RunOpposed(t: string, a: Scan, b: Scan)
    requires Opposed(a, b)
    ensures Opposed(Run(t, a), Run(t, b))
  {
    hide Step, HasBreak, Current;
    if t != "" {
      var front, c := t[..|t| - 1], t[|t| - 1];
      RunOpposed(front, a, b);
      StepBreaks(Run(front, a), c);
      StepBreaks(Run(front, b), c);
    }
  }

  /** Scanning on from a quoted line feed and scanning afresh never agree again: their last records
      differ, because only one of them has a line feed in it. */
  lemma {:induction false} QuotedCutDiffers(before: string, rest: string)
    requires Run(before, Start).mode.Quoted?
    ensures !IsSuffix(Records(rest), Records(before + "\n" + rest))
  {
    hide Run;
    var a := Run(before + "\n", Start);
    RunConcat(before, "\n", Start);
    RunOne('\n', Run(before, Start));
    assert a.mode.Quoted? && Current(a)[|a.row|] == a.field && '\n' in a.field;
    assert HasBreak(Current(a)) && !HasBreak(Current(Start));
    RunOpposed(rest, a, Start);
    RunConcat(before + "\n", rest, Start);
    var whole, part := Records(before + "\n" + rest), Records(rest);
    assert whole[|whole| - 1] == Current(Run(rest, a)) && part[|part| - 1] == Current(Run(rest, Start));
  }

  /** The cut is right exactly when it falls on an unquoted line feed: then, and only then, the
      records of what it keeps are the last records of the text.  Quoted line feeds anywhere
      else do not matter. */
  lemma {:induction false} TailCut(t: string, b: nat)
    requires '\n' in TailText(t, b)
    ensures var kept := DropLine(TailText(t, b));
      IsSuffix(Records(kept), Records(t)) <==> UnquotedBefore(t, kept)
  {
    hide Run, Records, TailText, DropLine;
    var kept := DropLine(TailText(t, b));
    var before := CutFollowsBreak(t, b);
    if Run(before, Start).mode.Quoted? {
      QuotedCutDiffers(before, kept);
    } else {
      RunPastBreak(before, kept);
    }
  }

  /** The cut keeps whole lines. */
  lemma {:induction false} CutKeepsLines(t: string, b: nat, p: string -> bool)
    requires EachLine(p, t) && '\n' in TailText(t, b)
    ensures EachLine(p, DropLine(TailText(t, b)))
    decreases |t|
  {
    hide FirstBreak, FirstLine, AfterLine, TailText, Size;
    if '\n' !in t {
      TailWithoutBreak(t, b);
    }
    LineSplit(t);
    TailStep(t, b);
    if Size(FirstLine(t)) <= b {
      CutKeepsLines(AfterLine(t), b - Size(FirstLine(t)), p);
    }
  }

  function AtMostBytes(m: nat): string -> bool {
    line => Size(line) <= m
  }

  /** The cut loses at most one line's worth of bytes, and finds a line feed unless the text
      from the offset on is shorter than one line. */
  lemma {:induction false} CutLosesOneLine(t: string, b: nat, m: nat)
    requires EachLine(AtMostBytes(m), t) && b <= Size(t)
    ensures '\n' in TailText(t, b) ==> Size(t) - b <= Size(DropLine(TailText(t, b))) + m
    ensures '\n' !in TailText(t, b) ==> Size(t) - b <= m
    decreases |t|
  {
    if '\n' in t {
      LineSplit(t);
      TailStep(t, b);
      if Size(FirstLine(t)) <= b {
        CutLosesOneLine(AfterLine(t), b - Size(FirstLine(t)), m);
      }
    } else {
      TailWithoutBreak(t, b);
    }
  }

  lemma {:induction false} SizeOfLines(t: string, m: nat)
    requires EachLine(AtMostBytes(m), t)
    ensures Size(t) <= m * LineCount(t)
    decreases |t|
  {
    hide FirstBreak, FirstLine, AfterLine, Size;
    if '\n' in t {
      LineSplit(t);
      SizeOfLines(AfterLine(t), m);
      var k := LineCount(AfterLine(t));
      assert m * (1 + k) == m + m * k;
      assert AtMostBytes(m)(FirstLine(t));
    } else {
      SizeOfOneLine(t, m);
    }
  }

  lemma SizeOfOneLine(t: string, m: nat)
    requires '\n' !in t && EachLine(AtMostBytes(m), t)
    ensures Size(t) <= m * LineCount(t)
  {
    hide FirstBreak, AfterLine;
    assert t != "" ==> AtMostBytes(m)(FirstLine(t));
  }

  /** The line reads as a record with a non-blank field. */
  predicate ReadsAsRow(line: string) {
    HasValue(Records(line)[0])
  }

  lemma {:induction false} OneRowPerLine(t: string)
    requires UnquotedBreaks(t) && EachLine(ReadsAsRow, t)
    ensures |Filter(HasValue, Records(t))| == LineCount(t)
    decreases |t|
  {
    if t == "" {
      var none: Record := [];
      assert none + [""] == [""] && Records(t) == [[""]];
      TrimBlank("");
    } else if '\n' in t {
      RunFirstLine(t);
      OneRowPerLine(AfterLine(t));
      var first := Run(FirstLine(t), Start).records;
      assert Records(FirstLine(t))[0] == first[0];
      FilterConcat(HasValue, first, Records(AfterLine(t)));
    } else {
      OneRecord(t);
    }
  }

  // ---------------------------------------------------------------- the parsed answers

  /** The header line, line feed included, is inside the first 64 KB. */
  predicate HeaderFits(file: string) {
    '\n' in file && Size(FirstLine(file)) <= 65_536
  }

  lemma {:induction false} HeaderTextIsFirstLine(file: string)
    requires HeaderFits(file)
    ensures HeaderText(file) == StripCarriageReturn(file[..FirstBreak(file)])
  {
    hide FirstBreak, AfterLine, Size;
    LineSplit(file);
    var name := file[..FirstBreak(file)];
    HeadPast(FirstLine(file), AfterLine(file), HEAD_BYTES);
    FirstBreakAt(name, HeadText(AfterLine(file), HEAD_BYTES - Size(FirstLine(file))));
  }

  /** A carriage return before an unquoted line feed is invisible to the scanner. */
  lemma {:induction false} RunStripped(name: string)
    requires !Run(name, Start).mode.Quoted?
    ensures Run(StripCarriageReturn(name) + "\n", Start) == Run(name + "\n", Start)
  {
    var bare := StripCarriageReturn(name);
    assert (bare + "\n")[..|bare|] == bare && (name + "\n")[..|name|] == name;
  }

  /** Header line plus any whole-line remainder scans as the header record plus the remainder. */
  lemma {:induction false} ReattachedHeader(file: string, kept: string)
    requires HeaderFits(file) && UnquotedBefore(file, AfterLine(file))
    ensures Records(HeaderText(file) + "\n" + kept) == [Records(file)[0]] + Records(kept)
    ensures Records(file) == [Records(file)[0]] + Records(AfterLine(file))
  {
    hide FirstBreak, HeaderText, Size, Run;
    var name := file[..FirstBreak(file)];
    HeaderTextIsFirstLine(file);
    LineSplit(file);
    assert file[..|file| - |AfterLine(file)| - 1] == name;
    RunStripped(name);
    RunHeaderLine(file);
    RunFromRecordStart(HeaderText(file) + "\n", kept);
  }

  /** The rows parsed from a reattached header and the kept lines are the file's last rows. */
  lemma {:induction false} TailRowsAreSuffix(file: string, kept: string, older: seq<Record>)
    requires HeaderFits(file) && UnquotedBefore(file, AfterLine(file))
    requires Records(AfterLine(file)) == older + Records(kept)
    ensures var part := CsvTable(HeaderText(file) + "\n" + kept).rows;
      && IsSuffix(part, CsvTable(file).rows)
      && |part| == |Filter(HasValue, Records(kept))|
      && (older == [] ==> part == CsvTable(file).rows)
  {
    hide FirstBreak, FirstLine, AfterLine, HeaderText, Size, Records, CsvTable;
    var text := HeaderText(file) + "\n" + kept;
    CsvRowsOfScan(text);
    CsvRowsOfScan(file);
    ReattachedHeader(file, kept);
    assert Records(file)[1..] == older + Records(kept);
    assert Records(text)[1..] == Records(kept);
    RowsConcat(HeadersOf(Records(file)[0]), older, Records(kept));
  }

  lemma LastNOfSuffix<T>(a: seq<T>, b: seq<T>, n: nat)
    requires IsSuffix(a, b)
    ensures IsSuffix(LastN(a, n), LastN(b, n))
    ensures LastN(a, n) == LastN(b, n) <==> |a| >= Min(n, |b|)
  {
    var d := |b| - |a|;
    assert forall i :: 0 <= i < |a| ==> b[d + i] == a[i];
  }

  lemma FilterOfSuffix<T>(p: T -> bool, a: seq<T>, b: seq<T>)
    requires IsSuffix(a, b)
    ensures IsSuffix(Filter(p, a), Filter(p, b))
  {
    var front := b[..|b| - |a|];
    assert b == front + a;
    FilterConcat(p, front, a);
  }

  lemma {:induction false} MatchingOfSuffix(a: seq<Row>, b: seq<Row>, q: Query, env: Env)
    requires IsSuffix(a, b)
    ensures IsSuffix(Matching(a, q, env), Matching(b, q, env))
  {
    hide IsSuffix, Filter, Trim, RowSymbol, RowRoute;
    var symbol, route := env.lower(Trim(q.symbol)), env.lower(Trim(q.route));
    var pSymbol := (r: Row) => env.lower(RowSymbol(r)) == symbol;
    var pRoute := (r: Row) => env.lower(RowRoute(r)) == route;
    FilterOfSuffix(pSymbol, a, b);
    var a1, b1 := if symbol == "" then a else Filter(pSymbol, a), if symbol == "" then b else Filter(pSymbol, b);
    FilterOfSuffix(pRoute, a1, b1);
    if q.days.Some? && q.days.value > 0 {
      var threshold := env.now - q.days.value * 86_400_000;
      var pDays := (r: Row) => env.timeOf(r).None? || env.timeOf(r).value >= threshold;
      var a2, b2 := if route == "" then a1 else Filter(pRoute, a1), if route == "" then b1 else Filter(pRoute, b1);
      FilterOfSuffix(pDays, a2, b2);
    }
  }

  /** The column read is the first of the names the row has. */
  lemma {:induction false} FirstPresentMeans(row: Row, keys: seq<string>)
    ensures (forall i :: 0 <= i < |keys| ==> keys[i] !in row) ==> FirstPresent(row, keys) == ""
    ensures forall i :: 0 <= i < |keys| && keys[i] in row && (forall j :: 0 <= j < i ==> keys[j] !in row) ==>
      FirstPresent(row, keys) == row[keys[i]]
  {
    if keys != [] && keys[0] !in row {
      FirstPresentMeans(row, keys[1..]);
      assert forall i :: 1 <= i < |keys| ==> keys[i] == keys[1..][i - 1];
      forall i | 0 <= i < |keys| && keys[i] in row && (forall j :: 0 <= j < i ==> keys[j] !in row)
        ensures FirstPresent(row, keys) == row[keys[i]] {
        assert keys[1..][i - 1] == keys[i];
      }
    }
  }

  /** What a query asks of a row: its symbol and its route, if any are given, whatever their case; and
      if days are given, no time stamp more than that many days old. */
  predicate Asked(row: Row, q: Query, env: Env) {
    var symbol, route, time := env.lower(Trim(q.symbol)), env.lower(Trim(q.route)), env.timeOf(row);
    && (symbol != "" ==> env.lower(RowSymbol(row)) == symbol)
    && (route != "" ==> env.lower(RowRoute(row)) == route)
    && (q.days.Some? && q.days.value > 0 && time.Some? ==> env.now - time.value <= q.days.value * 24 * 60 * 60 * 1000)
  }

  /** The filters together keep exactly the rows asked for, in their order. */
  lemma {:induction false} MatchingMeans(rows: seq<Row>, q: Query, env: Env)
    ensures Matching(rows, q, env) == Filter((r: Row) => Asked(r, q, env), rows)
  {
    hide Trim, RowSymbol, RowRoute, Filter;
    var symbol, route := env.lower(Trim(q.symbol)), env.lower(Trim(q.route));
    var pSymbol := (r: Row) => env.lower(RowSymbol(r)) == symbol;
    var pRoute := (r: Row) => env.lower(RowRoute(r)) == route;
    var threshold := if q.days.Some? then env.now - q.days.value * 86_400_000 else 0;
    var pDays := (r: Row) => env.timeOf(r).None? || env.timeOf(r).value >= threshold;
    var always := (r: Row) => true;
    var f1 := if symbol == "" then always else pSymbol;
    var f2 := (r: Row) => (route == "" || pRoute(r)) && f1(r);
    var f3 := (r: Row) => Asked(r, q, env);
    FilterAll(always, rows);
    if route == "" {
      FilterSame(f1, f2, rows);
    } else {
      FilterBoth(pRoute, f1, f2, rows);
    }
    if q.days.None? || q.days.value <= 0 {
      FilterSame(f2, f3, rows);
    } else {
      FilterBoth(pDays, f2, f3, rows);
    }
  }

  lemma FilterSame<T>(p: T -> bool, q: T -> bool, s: seq<T>)
    requires forall x :: p(x) <==> q(x)
    ensures Filter(p, s) == Filter(q, s)
  {
  }

  /** The answer from a whole file is the last of the rows asked for: all of them without a positive
      limit, and otherwise as many as the limit, and no more than 5000. */
  lemma {:induction false} AnswerMeans(file: string, q: Query, env: Env)
    ensures var asked := Filter((r: Row) => Asked(r, q, env), CsvTable(file).rows);
      && IsSuffix(FullAnswer(file, q, env), asked)
      && |FullAnswer(file, q, env)| ==
         if q.limit.None? || q.limit.value <= 0 then |asked| else Min(|asked|, Min(q.limit.value, 5000))
  {
    hide CsvTable, Matching, Filter;
    MatchingMeans(CsvTable(file).rows, q, env);
  }

  /** Files of up to a megabyte are read whole. */
  lemma SmallFilesAreReadWhole(file: string, q: Query, env: Env)
    requires Size(file) <= 1_048_576
    ensures Answer(file, q, env) == FullAnswer(file, q, env)
  {
    hide CsvTable, FilterRows, Size;
  }

  // ---------------------------------------------------------------- main results

  /** Where the tail read starts. */
  function TailStart(file: string, limit: nat): nat
    requires ReadsTail(file, limit)
  {
    Size(file) - TailBytes(Size(file), limit)
  }

  /** The two line feeds a tail read depends on are where it needs them: the header's within the
      first 64 KB, the cut's within the slice, and neither inside quotes. */
  predicate CleanCut(file: string, limit: nat)
    requires ReadsTail(file, limit)
  {
    && HeaderFits(file) && UnquotedBefore(file, AfterLine(file))
    && '\n' in TailSlice(file, limit) && UnquotedBefore(file, DropLine(TailSlice(file, limit)))
  }

  /** What a tail read keeps: all data lines when its slice starts in the header line, and
      otherwise what the same cut keeps of the data lines. */
  lemma {:induction false} TailReadKept(file: string, n: nat) returns (kept: string, older: seq<Record>)
    requires ReadsTail(file, n) && CleanCut(file, n)
    ensures RequestText(file, n) == HeaderText(file) + "\n" + kept
    ensures Records(AfterLine(file)) == older + Records(kept)
    ensures var b, h := TailStart(file, n), Size(FirstLine(file));
      if b < h then kept == AfterLine(file) && older == []
      else '\n' in TailText(AfterLine(file), b - h) && kept == DropLine(TailText(AfterLine(file), b - h))
  {
    hide FirstBreak, FirstLine, AfterLine, HeaderText, Size, Records, TailText, Run;
    var b := TailStart(file, n);
    kept := DropLine(TailSlice(file, n));
    LineSplit(file);
    TailStep(file, b);
    if b < Size(FirstLine(file)) {
      older := [];
    } else {
      RunHeaderLine(file);
      var before := CutFollowsBreak(AfterLine(file), b - Size(FirstLine(file)));
      assert file[..|file| - |kept| - 1] == FirstLine(file) + before;
      RunFromRecordStart(FirstLine(file), before);
      RunPastBreak(before, kept);
      older := Run(before + "\n", Start).records;
    }
  }

  /** On a file without quoted line feeds the cut is clean wherever it falls, and what it keeps has
      none either. */
  lemma {:induction false} UnquotedCut(file: string, n: nat)
    requires UnquotedBreaks(file) && HeaderFits(file) && ReadsTail(file, n) && '\n' in TailSlice(file, n)
    ensures CleanCut(file, n) && UnquotedBreaks(DropLine(TailSlice(file, n)))
  {
    hide FirstBreak, FirstLine, AfterLine, HeaderText, Size, Records, TailText, Run;
    RunFirstLine(file);
    var kept := DropLine(TailSlice(file, n));
    var before := CutFollowsBreak(file, TailStart(file, n));
    assert file[|before|] == '\n' && file[..|before|] == before;
    RunPastBreak(before, kept);
    UnquotedAfter(before + "\n", kept);
  }

  /** An unquoted cut is just what is needed: when the header is read whole, the records the parser
      is given after it are the last records of the file exactly if the cut is unquoted. */
  lemma {:induction false} TailRecordsAreSuffix(file: string, n: nat)
    requires ReadsTail(file, n) && '\n' in TailSlice(file, n)
    requires HeaderFits(file) && UnquotedBefore(file, AfterLine(file))
    ensures var request := Records(RequestText(file, n));
      IsSuffix(request[1..], Records(file)) <==> UnquotedBefore(file, DropLine(TailSlice(file, n)))
  {
    hide FirstBreak, FirstLine, AfterLine, HeaderText, Size, Records, TailText, Run;
    var kept := DropLine(TailSlice(file, n));
    TailCut(file, TailStart(file, n));
    ReattachedHeader(file, kept);
    assert Records(RequestText(file, n))[1..] == Records(kept);
  }

  /** Whatever the filters and the limit, a tail read with a clean cut invents no row and reorders
      none, however many fields elsewhere span lines: its answer is a suffix of the answer from the
      whole file.  It is the whole answer exactly when the part read holds enough matching rows. */
  lemma {:induction false} TailAnswerIsSuffix(file: string, q: Query, env: Env)
    requires ReadsTail(file, PositiveLimit(q.limit)) ==> CleanCut(file, PositiveLimit(q.limit))
    ensures IsSuffix(Answer(file, q, env), FullAnswer(file, q, env))
    ensures var n := PositiveLimit(q.limit); ReadsTail(file, n) ==>
      var seen := |Matching(CsvTable(RequestText(file, n)).rows, q, env)|;
      var all := |Matching(CsvTable(file).rows, q, env)|;
      Answer(file, q, env) == FullAnswer(file, q, env) <==> seen >= Min(n, all)
  {
    hide FirstBreak, FirstLine, AfterLine, HeaderText, Size, Records, CsvTable, TailText, Matching;
    var n := PositiveLimit(q.limit);
    if ReadsTail(file, n) {
      var kept, older := TailReadKept(file, n);
      TailRowsAreSuffix(file, kept, older);
      var part, all := CsvTable(RequestText(file, n)).rows, CsvTable(file).rows;
      MatchingOfSuffix(part, all, q, env);
      LastNOfSuffix(Matching(part, q, env), Matching(all, q, env), n);
    }
  }

  /** A query that only limits. */
  function LimitOnly(limit: Option<int>): Query {
    Query("", "", None, limit)
  }

  /** A data line of at most `m` bytes that reads as a row. */
  function SafeLine(m: nat): string -> bool {
    line => Size(line) <= m && ReadsAsRow(line)
  }

  lemma SafeLines(t: string, m: nat)
    requires EachLine(SafeLine(m), t)
    ensures EachLine(AtMostBytes(m), t) && EachLine(ReadsAsRow, t)
    decreases |t|
  {
    hide FirstBreak, Size, Records;
    if t != "" && '\n' in t {
      SafeLines(AfterLine(t), m);
    }
  }

  /** The bytes read for a limit hold more than the limit's number of lines of `m` bytes. */
  predicate Enough(m: nat, limit: nat) {
    m * limit < Max(262_144, 2048 * limit)
  }

  lemma FewLinesAreShort(size: nat, m: nat, lines: nat, n: nat)
    requires size <= m * lines && m * n - m < size
    ensures lines >= n
  {
    assert lines <= n - 1 ==> m * lines <= m * (n - 1);
    assert m * (n - 1) == m * n - m;
  }

  /** A limit-only tail read of safe lines always finds a line feed, and reads either every data
      line or at least as many as the limit asks for. */
  lemma {:induction false} TailHoldsEnough(file: string, n: nat, m: nat) returns (kept: string, older: seq<Record>)
    requires UnquotedBreaks(file) && HeaderFits(file) && EachLine(SafeLine(m), AfterLine(file))
    requires ReadsTail(file, n) && Enough(m, n)
    ensures '\n' in TailSlice(file, n)
    ensures RequestText(file, n) == HeaderText(file) + "\n" + kept
    ensures Records(AfterLine(file)) == older + Records(kept)
    ensures older == [] || |Filter(HasValue, Records(kept))| >= n
  {
    hide FirstBreak, FirstLine, AfterLine, HeaderText, Size, Records, TailText, CsvTable, LineCount, EachLine, Run;
    var data, b, h := AfterLine(file), TailStart(file, n), Size(FirstLine(file));
    LineSplit(file);
    TailStep(file, b);
    RunFirstLine(file);
    SafeLines(data, m);
    assert m <= m * n;
    if h <= b {
      CutLosesOneLine(data, b - h, m);
    }
    UnquotedCut(file, n);
    kept, older := TailReadKept(file, n);
    if h <= b {
      CutKeepsLines(data, b - h, SafeLine(m));
    }
    SafeLines(kept, m);
    SizeOfLines(kept, m);
    OneRowPerLine(kept);
    if h <= b {
      FewLinesAreShort(Size(kept), m, LineCount(kept), n);
    }
  }

  /** The tail read is exact for a limit: on any file whose line feeds are unquoted, whose header
      line fits the head read and whose data lines are non-blank and at most `m` bytes long, with
      `m` times the limit less than the bytes read for it. */
  lemma {:induction false} TailReadIsExactFor(file: string, limit: Option<int>, m: nat, env: Env)
    requires env.lower("") == "" && Enough(m, PositiveLimit(limit))
    requires UnquotedBreaks(file) && HeaderFits(file) && EachLine(SafeLine(m), AfterLine(file))
    ensures Answer(file, LimitOnly(limit), env) == FullAnswer(file, LimitOnly(limit), env)
  {
    hide FirstBreak, FirstLine, AfterLine, HeaderText, Size, Records, TailText, CsvTable, Enough, UnquotedBreaks;
    var n := PositiveLimit(limit);
    RunFirstLine(file);
    if ReadsTail(file, n) {
      var kept, older := TailHoldsEnough(file, n, m);
      TailRowsAreSuffix(file, kept, older);
      var part, all := CsvTable(RequestText(file, n)).rows, CsvTable(file).rows;
      LastNOfSuffix(part, all, n);
    }
  }

  /** The longest data line, line feed included, that is safe for every limit. */
  const SAFE_LINE_BYTES: nat := 2047

  /** With data lines of at most 2047 bytes every limit gives exactly the rows the whole file gives. */
  lemma {:induction false} TailReadIsExact(file: string, limit: Option<int>, env: Env)
    requires env.lower("") == ""
    requires UnquotedBreaks(file) && HeaderFits(file) && EachLine(SafeLine(SAFE_LINE_BYTES), AfterLine(file))
    ensures Answer(file, LimitOnly(limit), env) == FullAnswer(file, LimitOnly(limit), env)
  {
    hide *;
    SafeForAll(PositiveLimit(limit));
    TailReadIsExactFor(file, limit, SAFE_LINE_BYTES, env);
  }

  lemma SafeForAll(n: nat)
    ensures Enough(SAFE_LINE_BYTES, n)
  {
  }
}
