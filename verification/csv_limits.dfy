/** Ledgers on which a tail read is not exact: the conditions of `CsvTail` are needed. */
module CsvLimits {
  import opened Sequences
  import opened Numbers
  import opened CsvScanner
  import opened CsvTail

  // ---------------------------------------------------------------- lines one byte too long

  function Repeat(c: char, n: nat): string {
    if n == 0 then "" else [c] + Repeat(c, n - 1)
  }

  /** A data line of `n` letters and its line feed. */
  function WideLine(n: nat): string {
    Repeat('x', n) + "\n"
  }

  function WideLines(n: nat, k: nat): string {
    if k == 0 then "" else WideLine(n) + WideLines(n, k - 1)
  }

  lemma {:induction false} RepeatFacts(n: nat)
    ensures |Repeat('x', n)| == Size(Repeat('x', n)) == n
    ensures forall i :: 0 <= i < n ==> Repeat('x', n)[i] == 'x'
  {
    if n > 0 {
      RepeatFacts(n - 1);
    }
  }

  lemma RunLetters(t: string)
    requires forall i :: 0 <= i < |t| ==> t[i] == 'x'
    ensures Run(t, Start) == Scan(Plain, [], t, [])
  {
    if t != "" {
      var front := t[..|t| - 1];
      RunLetters(front);
      assert t == front + [t[|t| - 1]];
    }
  }

  lemma {:induction false} WideLineReadsAsRow(n: nat)
    requires n > 0
    ensures ReadsAsRow(WideLine(n))
  {
    var xs := Repeat('x', n);
    RepeatFacts(n);
    RunLetters(xs);
    assert WideLine(n)[..n] == xs;
    var none: Record := [];
    assert none + [xs] == [xs] && Records(WideLine(n))[0] == [xs];
    TrimBlank(xs);
    assert xs[0] in xs && [xs][0] == xs;
  }

  lemma {:induction false} WideLinesFacts(n: nat, k: nat)
    requires n > 0
    ensures var t := WideLines(n, k);
      && Size(t) == (n + 1) * k && LineCount(t) == k && EachLine(ReadsAsRow, t) && '"' !in t
      && (k > 0 ==> '\n' in t && FirstLine(t) == WideLine(n) && AfterLine(t) == WideLines(n, k - 1))
  {
    hide FirstBreak, ReadsAsRow;
    if k > 0 {
      var xs, rest := Repeat('x', n), WideLines(n, k - 1);
      WideLinesFacts(n, k - 1);
      RepeatFacts(n);
      WideLineReadsAsRow(n);
      SizeConcat(xs, "\n");
      SizeConcat(xs + "\n", rest);
      FirstBreakAt(xs, rest);
      assert (n + 1) * k == (n + 1) + (n + 1) * (k - 1);
    }
  }

  lemma {:induction false} WideLinesAreSafe(n: nat, k: nat)
    requires n > 0
    ensures EachLine(SafeLine(n + 1), WideLines(n, k))
  {
    hide FirstBreak, FirstLine, AfterLine, ReadsAsRow, Size, WideLines, WideLine;
    WideLinesFacts(n, k);
    if k > 0 {
      WideLinesAreSafe(n, k - 1);
      WideLineReadsAsRow(n);
      WideLineSize(n + 1);
      assert SafeLine(n + 1)(WideLine(n));
    } else {
      assert WideLines(n, k) == "" by { WideLinesEmpty(n, k); }
    }
  }

  lemma WideLinesEmpty(n: nat, k: nat)
    requires k == 0
    ensures WideLines(n, k) == ""
  {
  }

  /** An offset of `j` lines and `c` bytes more skips `j` lines. */
  lemma {:induction false} TailOfWideLines(n: nat, k: nat, j: nat, c: nat)
    requires n > 0 && j <= k
    ensures TailText(WideLines(n, k), (n + 1) * j + c) == TailText(WideLines(n, k - j), c)
  {
    hide TailText, Size, WideLine;
    if j > 0 {
      WideLineSize(n + 1);
      assert (n + 1) * j == (n + 1) + (n + 1) * (j - 1);
      TailPast(WideLine(n), WideLines(n, k - 1), (n + 1) * j + c);
      TailOfWideLines(n, k - 1, j - 1, c);
    }
  }

  lemma NoQuotes(t: string)
    requires '"' !in t
    ensures UnquotedBreaks(t)
  {
    forall i | 0 <= i <= |t| ensures Run(t[..i], Start).mode.Plain? {
      RunUnquoted(t[..i]);
    }
  }

  lemma RunUnquoted(t: string)
    requires '"' !in t
    ensures Run(t, Start).mode.Plain?
  {
    if t != "" {
      RunUnquoted(t[..|t| - 1]);
      assert t[|t| - 1] in t;
    }
  }

  /** A ledger of `k` data lines of `m` bytes each. */
  function WideFile(m: nat, k: nat): string
    requires m >= 2
  {
    "h\n" + WideLines(m - 1, k)
  }

  lemma {:induction false} WideFileFacts(m: nat, k: nat)
    requires m >= 2
    ensures var file := WideFile(m, k);
      && '\n' in file && FirstLine(file) == "h\n" && AfterLine(file) == WideLines(m - 1, k)
      && Size(file) == 2 + m * k && Size("h\n") == 2
      && UnquotedBreaks(file) && HeaderFits(file)
  {
    hide FirstBreak, WideLines, Repeat;
    var data := WideLines(m - 1, k);
    WideLinesFacts(m - 1, k);
    assert "h" + "\n" == "h\n";
    FirstBreakAt("h", data);
    SizeConcat("h\n", data);
    assert WideFile(m, k)[..2] == "h\n";
    NoQuotes(WideFile(m, k));
  }

  /** How many bytes a tail read takes. */
  function BytesRead(n: nat): nat {
    Max(TAIL_MIN_BYTES, n * TAIL_BYTES_PER_ROW)
  }

  /** Whole lines of `m` bytes left after the last `bytes` bytes lose their first, maybe partial, line. */
  function WholeLines(bytes: nat, m: nat): nat
    requires bytes > 0 && m > 0
  {
    (bytes - 1) / m
  }

  lemma {:induction false} WholeLinesFacts(bytes: nat, m: nat, n: nat, k: nat)
    requires bytes > 0 && m > 0 && bytes <= m * n && n <= k
    ensures var q := WholeLines(bytes, m);
      q < n && 0 <= m * (q + 1) - bytes < m && m * (k - (q + 1)) + (m * (q + 1) - bytes) == m * k - bytes
  {
    var q := WholeLines(bytes, m);
    assert bytes - 1 == m * q + (bytes - 1) % m;
    assert m * (q + 1) == m * q + m;
    assert q >= n ==> m * q >= m * n;
    assert m * (k - (q + 1)) == m * k - m * (q + 1);
  }

  /** What the cut leaves of equally long lines. */
  lemma {:induction false} CutOfWideLines(m: nat, k: nat, bytes: nat, n: nat)
    requires m >= 2 && bytes > 0 && bytes <= m * n && n <= k
    ensures var slice := TailText(WideLines(m - 1, k), m * k - bytes);
      '\n' in slice && DropLine(slice) == WideLines(m - 1, WholeLines(bytes, m)) && WholeLines(bytes, m) < n
  {
    hide TailText, DropLine, WideLines, WideLine, FirstLine, AfterLine, Size, WholeLines;
    var q := WholeLines(bytes, m);
    WholeLinesFacts(bytes, m, n, k);
    var c := m * (q + 1) - bytes;
    TailOfWideLines(m - 1, k, k - (q + 1), c);
    WideLinesFacts(m - 1, q + 1);
    WideLinesFacts(m - 1, 1);
    TailStep(WideLines(m - 1, q + 1), c);
    WideLineSize(m);
  }

  lemma {:induction false} WideLineSize(m: nat)
    requires m >= 2
    ensures Size(WideLine(m - 1)) == m
  {
    RepeatFacts(m - 1);
    SizeConcat(Repeat('x', m - 1), "\n");
  }

  /** The rows parsed from the tail of such a ledger, and from all of it. */
  lemma {:induction false} WideFileRows(m: nat, k: nat, n: nat)
    requires m >= 2 && n >= 1 && !Enough(m, n) && n <= k && m * k > FULL_READ_BYTES
    ensures |CsvTable(RequestText(WideFile(m, k), n)).rows| == WholeLines(BytesRead(n), m) < n
    ensures |CsvTable(WideFile(m, k)).rows| == k
  {
    hide FirstBreak, FirstLine, AfterLine, HeaderText, Size, Records, TailText, DropLine, CsvTable, WideLines, WideFile,
         WideLine, WholeLines, Run, Filter, EachLine, LineCount, ReadsAsRow, UnquotedBreaks, HeaderFits;
    var file, bytes := WideFile(m, k), BytesRead(n);
    var q := WholeLines(bytes, m);
    WideFileFacts(m, k);
    assert m * n <= m * k;
    CutOfWideLines(m, k, bytes, n);
    assert TailStart(file, n) == 2 + (m * k - bytes);
    TailStep(file, TailStart(file, n));
    UnquotedCut(file, n);
    var kept, older := TailReadKept(file, n);
    assert kept == WideLines(m - 1, q);
    WideLinesFacts(m - 1, k);
    WideLinesFacts(m - 1, q);
    RowCounts(file, kept, older);
  }

  /** Lines too long for the limit: the tail read answers the whole lines left in the bytes it takes,
      which are fewer rows than the limit asks for and the file has. */
  lemma {:induction false} WideLinesLoseRows(m: nat, k: nat, n: nat, env: Env)
    requires m >= 2 && 1 <= n <= MAX_LIMIT && !Enough(m, n) && env.lower("") == ""
    requires n <= k && m * k > FULL_READ_BYTES
    ensures |Answer(WideFile(m, k), LimitOnly(Some(n)), env)| == WholeLines(BytesRead(n), m) < n
    ensures |FullAnswer(WideFile(m, k), LimitOnly(Some(n)), env)| == n
  {
    hide CsvTable, RequestText, WideFile, WholeLines, Filter, Enough;
    WideFileRows(m, k, n);
    assert LimitOnly(Some(n)).symbol == "" && Trim("") == "";
  }

  /** On every ledger with unquoted line feeds and non-blank data lines of at most `m` bytes, the
      limit gives exactly the rows of the whole file. */
  ghost predicate ReadsExactly(m: nat, limit: Option<int>, env: Env) {
    forall file :: UnquotedBreaks(file) && HeaderFits(file) && EachLine(SafeLine(m), AfterLine(file)) ==>
      Answer(file, LimitOnly(limit), env) == FullAnswer(file, LimitOnly(limit), env)
  }

  /** The bound is sharp: for each line length and each limit, all such ledgers are read exactly if
      and only if the bytes read are more than the limit's number of longest lines. */
  lemma {:induction false} ReadsExactlyWhenEnough(m: nat, limit: Option<int>, env: Env)
    requires env.lower("") == ""
    ensures ReadsExactly(m, limit, env) <==> Enough(m, PositiveLimit(limit))
  {
    hide UnquotedBreaks, Size, FirstLine, EachLine, AfterLine, Answer, FullAnswer, WideLines;
    var n := PositiveLimit(limit);
    if Enough(m, n) {
      forall file | UnquotedBreaks(file) && HeaderFits(file) && EachLine(SafeLine(m), AfterLine(file))
        ensures Answer(file, LimitOnly(limit), env) == FullAnswer(file, LimitOnly(limit), env) {
        TailReadIsExactFor(file, limit, m, env);
      }
    } else {
      var k := n + FULL_READ_BYTES;
      LongLines(m, n, k);
      WideFileFacts(m, k);
      WideLinesAreSafe(m - 1, k);
      WideLinesLoseRows(m, k, n, env);
      LimitAsRead(WideFile(m, k), limit, env);
    }
  }

  lemma LongLines(m: nat, n: nat, k: nat)
    requires !Enough(m, n) && k == n + FULL_READ_BYTES
    ensures n >= 1 && m >= 2 && m * k > FULL_READ_BYTES
  {
    assert m < 2 ==> m * n <= n;
    assert m >= 2 ==> m * k >= 2 * k;
  }

  /** Only what the limit parses to matters. */
  lemma LimitAsRead(file: string, limit: Option<int>, env: Env)
    ensures var q := LimitOnly(Some(PositiveLimit(limit)));
      Answer(file, LimitOnly(limit), env) == Answer(file, q, env)
      && FullAnswer(file, LimitOnly(limit), env) == FullAnswer(file, q, env)
  {
    hide CsvTable, RequestText, Filter;
  }

  lemma {:induction false} RowCounts(file: string, kept: string, older: seq<Record>)
    requires UnquotedBreaks(file) && HeaderFits(file) && UnquotedBreaks(kept)
    requires EachLine(ReadsAsRow, AfterLine(file)) && EachLine(ReadsAsRow, kept)
    requires Records(AfterLine(file)) == older + Records(kept)
    ensures |CsvTable(HeaderText(file) + "\n" + kept).rows| == LineCount(kept)
    ensures |CsvTable(file).rows| == LineCount(AfterLine(file))
  {
    hide FirstBreak, FirstLine, AfterLine, HeaderText, Size, Records, CsvTable;
    RunFirstLine(file);
    OneRowPerLine(kept);
    OneRowPerLine(AfterLine(file));
    TailRowsAreSuffix(file, kept, older);
    TailRowsAreSuffix(file, AfterLine(file), []);
  }

  // ---------------------------------------------------------------- long headers

  lemma {:induction false} HeadOfRepeat(n: nat, b: nat, rest: string)
    requires b <= n
    ensures HeadText(Repeat('x', n) + rest, b) == Repeat('x', b)
  {
    if b > 0 {
      HeadOfRepeat(n - 1, b - 1, rest);
      assert (Repeat('x', n) + rest)[1..] == Repeat('x', n - 1) + rest;
    }
  }

  /** A header line that does not end in the first 64 KB is cut there. */
  lemma {:induction false} LongHeaderIsCut(n: nat, rest: string)
    requires n >= 65_536
    ensures HeaderText(Repeat('x', n) + rest) == Repeat('x', 65_536)
  {
    hide Repeat, HeadText, FirstBreak;
    HeadOfRepeat(n, HEAD_BYTES, rest);
    RepeatFacts(HEAD_BYTES);
    var head := Repeat('x', HEAD_BYTES);
    assert HeadText(Repeat('x', n) + rest, HEAD_BYTES) == head;
    assert '\n' !in head && FirstBreak(head) == |head| && head[..|head|] == head;
    assert StripCarriageReturn(head) == head;
    assert HEAD_BYTES == 65_536;
  }

  // ---------------------------------------------------------------- quoted line breaks

  /** A ledger with one record, whose one field is a quoted text of many lines. */
  function QuotedFile(k: nat): string {
    "h\n\"" + WideLines(TAIL_BYTES_PER_ROW - 1, k) + "\"\n"
  }

  lemma WideLinesSplit(n: nat, i: nat, j: nat)
    ensures WideLines(n, i + j) == WideLines(n, i) + WideLines(n, j)
  {
    hide WideLine;
    if i == 0 {
      assert "" + WideLines(n, j) == WideLines(n, j);
    } else {
      WideLinesSplit(n, i - 1, j);
    }
  }

  lemma RunInsideQuotes(t: string, s: Scan)
    requires s.mode.Quoted? && '"' !in t
    ensures Run(t, s) == s.(field := s.field + t)
  {
    if t == "" {
      assert s.field + t == s.field;
    } else {
      RunInsideQuotes(t[..|t| - 1], s);
      assert t[|t| - 1] in t && t == t[..|t| - 1] + [t[|t| - 1]];
    }
  }

  lemma SingleField(t: string)
    ensures var none: Record := []; none + [t] == [t]
    ensures "" + t == t
  {
  }

  lemma {:induction false} RunOpening()
    ensures Run("h" + "\n", Start) == Scan(Plain, [], "", [["h"]])
    ensures Run("h\n\"", Start) == Scan(Quoted, [], "", [["h"]])
  {
    hide Run;
    SingleField("h");
    RunOne('h', Start);
    RunConcat("h", "\n", Start);
    RunOne('\n', Scan(Plain, [], "h", []));
    assert "h" + "\n" == "h\n" && "h\n" + "\"" == "h\n\"";
    RunConcat("h\n", "\"", Start);
    RunOne('"', Scan(Plain, [], "", [["h"]]));
  }

  lemma {:induction false} RunClosing(s: Scan)
    ensures s.mode.Quoted? ==> Run("\"\n", s) == Scan(Plain, [], "", s.records + [s.row + [s.field]])
    ensures s.mode.Plain? ==> Run("\"\n", s) == s.(mode := Quoted, field := s.field + "\n")
  {
    hide Run;
    assert "\"" + "\n" == "\"\n";
    RunConcat("\"", "\n", s);
    RunOne('"', s);
    RunOne('\n', Step(s, '"'));
  }

  /** The whole file reads as one row. */
  lemma {:induction false} QuotedFileIsOneRow(k: nat)
    requires k > 0
    ensures |CsvTable(QuotedFile(k)).rows| == 1
  {
    hide WideLines, WideLine, Repeat, Run, Filter, Trim;
    var inner := WideLines(TAIL_BYTES_PER_ROW - 1, k);
    WideLinesFacts(TAIL_BYTES_PER_ROW - 1, k);
    WideLinesNotBlank(TAIL_BYTES_PER_ROW - 1, k);
    RunOpening();
    RunConcat("h\n\"" + inner, "\"\n", Start);
    RunConcat("h\n\"", inner, Start);
    RunInsideQuotes(inner, Scan(Quoted, [], "", [["h"]]));
    RunClosing(Scan(Quoted, [], inner, [["h"]]));
    SingleField(inner);
    SingleField("");
    assert [["h"]] + [[inner]] + [[""]] == [["h"]] + ([[inner]] + [[""]]);
    assert Records(QuotedFile(k)) == [["h"]] + ([[inner]] + [[""]]);
    CsvRowsOfScan(QuotedFile(k));
    OneFilledRecord(inner);
  }

  lemma {:induction false} OneFilledRecord(inner: string)
    requires !Blank(inner)
    ensures |Filter(HasValue, [[inner]] + [[""]])| == 1
  {
    TrimBlank(inner);
    TrimBlank("");
    assert [inner][0] == inner && HasValue([inner]) && !HasValue([""]);
    FilterAppend(HasValue, [], [inner]);
    FilterAppend(HasValue, [[inner]], [""]);
    assert [] + [[inner]] == [[inner]];
  }

  lemma WideLinesNotBlank(n: nat, k: nat)
    requires n > 0 && k > 0
    ensures !Blank(WideLines(n, k))
  {
    assert WideLines(n, k)[0] == 'x';
    assert 'x' in WideLines(n, k) && !IsSpace('x');
  }

  /** The text a small tail read hands to the parser: lines from inside the quoted field. */
  lemma {:induction false} QuotedFileTail(k: nat, n: nat)
    requires k >= 512 && 1 <= n <= 128
    ensures RequestText(QuotedFile(k), n) == "h" + "\n" + (WideLines(TAIL_BYTES_PER_ROW - 1, 127) + "\"\n")
  {
    hide WideLines, WideLine, Repeat, Size, TailText, HeaderText, FirstBreak, FirstLine, AfterLine;
    var w, file := TAIL_BYTES_PER_ROW - 1, QuotedFile(k);
    var xs := Repeat('x', w);
    var rest := WideLines(w, 127) + "\"\n";
    QuotedFileShape(k);
    WideLinesFacts(w, k - 128);
    WideLinesFacts(w, 127);
    var skipped := "h\n\"" + WideLines(w, k - 128);
    SizeConcat("h\n\"", WideLines(w, k - 128));
    SizeConcat(skipped, xs + "\n" + rest);
    SizeConcat(xs + "\n", rest);
    SizeConcat(WideLines(w, 127), "\"\n");
    SmallSizes();
    assert Size(file) == 5 + TAIL_BYTES_PER_ROW * k;
    TailPast(skipped, xs + "\n" + rest, TailStart(file, n));
    TailInLine(xs, rest, 2);
    QuotedFileHeader(k);
  }

  lemma {:induction false} SmallSizes()
    ensures Size("h\n\"") == 3 && Size("\"\n") == 2
    ensures Size(Repeat('x', TAIL_BYTES_PER_ROW - 1) + "\n") == TAIL_BYTES_PER_ROW
    ensures '\n' !in Repeat('x', TAIL_BYTES_PER_ROW - 1)
  {
    hide Repeat;
    RepeatFacts(TAIL_BYTES_PER_ROW - 1);
    SizeConcat(Repeat('x', TAIL_BYTES_PER_ROW - 1), "\n");
    assert "h\n\""[1..] == "\n\"" && "\n\""[1..] == "\"" && "\""[1..] == "" && "\"\n"[1..] == "\n" && "\n"[1..] == "";
    assert Size("\"") == 1 && Size("\n") == 1 && Size("\n\"") == 2;
  }

  lemma {:induction false} QuotedFileShape(k: nat)
    requires k >= 128
    ensures var w := TAIL_BYTES_PER_ROW - 1;
      QuotedFile(k) == ("h\n\"" + WideLines(w, k - 128))
                       + (Repeat('x', w) + "\n" + (WideLines(w, 127) + "\"\n"))
  {
    hide Repeat;
    var w := TAIL_BYTES_PER_ROW - 1;
    WideLinesSplit(w, k - 128, 128);
  }

  lemma {:induction false} QuotedFileHeader(k: nat)
    ensures HeaderText(QuotedFile(k)) == "h"
  {
    hide WideLines, FirstBreak, HeaderText, Size;
    var rest := "\"" + WideLines(TAIL_BYTES_PER_ROW - 1, k) + "\"\n";
    assert QuotedFile(k) == "h" + "\n" + rest;
    FirstBreakAt("h", rest);
    assert FirstLine(QuotedFile(k)) == "h\n";
    HeaderSize();
    HeaderTextIsFirstLine(QuotedFile(k));
    assert QuotedFile(k)[..1] == "h";
  }

  lemma HeaderSize()
    ensures Size("h\n") == 2
  {
    assert "h\n"[1..] == "\n" && "\n"[1..] == "";
  }

  lemma NoWideLines(n: nat)
    ensures AtRecordStart(Run(WideLines(n, 0), Start))
  {
  }

  lemma {:induction false} WideLinesEndARecord(n: nat, k: nat)
    requires n > 0
    ensures AtRecordStart(Run(WideLines(n, k), Start))
  {
    hide *;
    if k == 0 {
      NoWideLines(n);
    } else {
      WideLinesFacts(n, k);
      WideLinesEndARecord(n, k - 1);
      NoQuotes(WideLines(n, k));
      RunFirstLine(WideLines(n, k));
      LineSplit(WideLines(n, k));
      RunFromRecordStart(WideLine(n), WideLines(n, k - 1));
    }
  }

  /** A quoted cut can make a tail read take the lines of one field for rows: the whole file has one
      row, and the tail read answers as many as the limit asks for, up to 127. */
  lemma {:induction false} QuotedBreaksInventRows(k: nat, n: nat, env: Env)
    requires k >= 512 && 1 <= n <= 128 && env.lower("") == ""
    ensures |FullAnswer(QuotedFile(k), LimitOnly(Some(n)), env)| == 1
    ensures |Answer(QuotedFile(k), LimitOnly(Some(n)), env)| == Min(n, 127)
  {
    hide WideLines, WideLine, Repeat, RequestText, QuotedFile, Records, CsvTable, Run;
    var w := TAIL_BYTES_PER_ROW - 1;
    QuotedFileIsOneRow(k);
    QuotedFileTail(k, n);
    QuotedTailRows();
    assert Trim("") == "";
  }

  lemma {:induction false} QuotedTailRows()
    ensures |CsvTable("h" + "\n" + (WideLines(TAIL_BYTES_PER_ROW - 1, 127) + "\"\n")).rows| == 127
  {
    hide WideLines, WideLine, Repeat, Run, Filter, Trim, HasValue;
    var lines, end := WideLines(TAIL_BYTES_PER_ROW - 1, 127), "\"\n";
    WideLinesFacts(TAIL_BYTES_PER_ROW - 1, 127);
    NoQuotes(lines);
    OneRowPerLine(lines);
    WideLinesEndARecord(TAIL_BYTES_PER_ROW - 1, 127);
    RunFromRecordStart(lines, end);
    RunOpening();
    RunFromRecordStart("h" + "\n", lines + end);
    RunClosing(Start);
    var done := Run(lines, Start).records;
    var text := "h" + "\n" + (lines + end);
    SingleField("\n");
    SingleField("");
    assert Records(end) == [] + [["\n"]] == [["\n"]];
    assert Records(text) == [["h"]] + (done + [["\n"]]);
    assert Records(lines) == done + [[""]];
    FilterAppend(HasValue, done, ["\n"]);
    FilterAppend(HasValue, done, [""]);
    BlankRecords();
    CsvRowsOfScan(text);
  }

  lemma BlankRecords()
    ensures !HasValue([""]) && !HasValue(["\n"])
  {
    TrimBlank("\n");
    TrimBlank("");
  }
}
