/** The ledger reader's record scanner and row table (Dashboard/phase2_api_routes.js).

    Text is a sequence of code points.  `Run` is the reference scanner: an automaton that
    reads one character at a time and never looks ahead, so that runs compose.  `ParseRecords`
    is the shipped loop, which looks one character ahead to recognise a doubled quote. */
module CsvScanner {
  import opened Sequences

  type Record = seq<string>
  type Row = map<string, string>

  const BOM: char := '\U{FEFF}'

  /** `Closing` means: the character just read was a quote that ends the quoted part
      unless another quote follows. */
  datatype Mode = Plain | Quoted | Closing

  datatype Scan = Scan(mode: Mode, row: Record, field: string, records: seq<Record>)

  const Start := Scan(Plain, [], "", [])

  function Step(s: Scan, c: char): Scan {
    if s.mode.Quoted? then
      if c == '"' then s.(mode := Closing) else s.(field := s.field + [c])
    else if c == '"' then
      if s.mode.Closing? then s.(mode := Quoted, field := s.field + [c]) else s.(mode := Quoted)
    else if c == ',' then Scan(Plain, s.row + [s.field], "", s.records)
    else if c == '\n' then Scan(Plain, [], "", s.records + [s.row + [s.field]])
    else if c == '\r' then s.(mode := Plain)
    else s.(mode := Plain, field := s.field + [c])
  }

  function Run(t: string, s: Scan): Scan {
    if t == "" then s else Step(Run(t[..|t| - 1], s), t[|t| - 1])
  }

  function Records(t: string): seq<Record> {
    var e := Run(t, Start);
    e.records + [e.row + [e.field]]
  }

  lemma RunNothing(s: Scan)
    ensures Run("", s) == s
  {
  }

  lemma RunOne(c: char, s: Scan)
    ensures Run([c], s) == Step(s, c)
  {
    assert [c][..0] == "";
  }

  lemma RunConcat(a: string, b: string, s: Scan)
    ensures Run(a + b, s) == Run(b, Run(a, s))
  {
    if b == "" {
      assert a + b == a;
    } else {
      assert (a + b)[..|a + b| - 1] == a + b[..|b| - 1];
      RunConcat(a, b[..|b| - 1], s);
    }
  }

  /** Records already collected are only ever carried along. */
  lemma RunCarries(t: string, s: Scan, older: seq<Record>)
    ensures Run(t, s.(records := older + s.records))
            == Run(t, s).(records := older + Run(t, s).records)
  {
    if t != "" {
      RunCarries(t[..|t| - 1], s, older);
      var e := Run(t[..|t| - 1], s);
      assert older + (e.records + [e.row + [e.field]]) == (older + e.records) + [e.row + [e.field]];
    }
  }

  /** The scanner has just ended a record: it is where it was at the start, plus records. */
  predicate AtRecordStart(s: Scan) {
    s.mode.Plain? && s.row == [] && s.field == ""
  }

  lemma {:induction false} RunFromRecordStart(a: string, b: string)
    requires AtRecordStart(Run(a, Start))
    ensures Run(a + b, Start) == Run(b, Start).(records := Run(a, Start).records + Run(b, Start).records)
    ensures Records(a + b) == Run(a, Start).records + Records(b)
    ensures AtRecordStart(Run(b, Start)) ==> AtRecordStart(Run(a + b, Start))
  {
    var m := Run(a, Start);
    RunConcat(a, b, Start);
    RunCarries(b, Start, m.records);
    assert m == Start.(records := m.records + Start.records);
  }

  /** The shipped loop: an index, a current row and field, a quote flag and one character of
      look-ahead. */
  method ParseRecords(source: string) returns (records: seq<Record>)
    ensures records == Records(source)
  {
    records := [];
    var row: Record := [];
    var field := "";
    var quoted := false;
    var i := 0;
    while i < |source|
      invariant i <= |source|
      invariant var s := Run(source[..i], Start);
        && s.row == row && s.field == field && s.records == records
        && (quoted <==> s.mode.Quoted?)
        && (s.mode.Closing? && i < |source| ==> source[i] != '"')
    {
      var c := source[i];
      assert source[..i + 1][..i] == source[..i];
      if quoted {
        if c == '"' && i + 1 < |source| && source[i + 1] == '"' {
          assert source[..i + 2][..i + 1] == source[..i + 1];
          field := field + ['"'];
          i := i + 1;
        } else if c == '"' {
          quoted := false;
        } else {
          field := field + [c];
        }
        i := i + 1;
        continue;
      }
      if c == '"' {
        quoted := true;
      } else if c == ',' {
        row := row + [field];
        field := "";
      } else if c == '\n' {
        row := row + [field];
        records := records + [row];
        row := [];
        field := "";
      } else if c != '\r' {
        field := field + [c];
      }
      i := i + 1;
    }
    assert source[..i] == source;
    row := row + [field];
    records := records + [row];
  }

  // ---------------------------------------------------------------- white space

  /** White space and line terminators as `String.prototype.trim` strips them
      (section 22.1.3.32 of ECMA-262, 2023 edition). */
  predicate IsSpace(c: char) {
    var n := c as int;
    || 9 <= n <= 13 || n == 0x20 || n == 0xA0 || n == 0x1680 || 0x2000 <= n <= 0x200A
    || n == 0x2028 || n == 0x2029 || n == 0x202F || n == 0x205F || n == 0x3000 || n == 0xFEFF
  }

  function TrimStart(s: string): string {
    if s != "" && IsSpace(s[0]) then TrimStart(s[1..]) else s
  }

  function TrimEnd(s: string): string {
    if s != "" && IsSpace(s[|s| - 1]) then TrimEnd(s[..|s| - 1]) else s
  }

  function Trim(s: string): string {
    TrimEnd(TrimStart(s))
  }

  predicate Blank(s: string) {
    forall c :: c in s ==> IsSpace(c)
  }

  lemma TrimStartBlank(s: string)
    ensures TrimStart(s) == "" <==> Blank(s)
    ensures Blank(TrimStart(s)) <==> Blank(s)
  {
    if s != "" && IsSpace(s[0]) {
      TrimStartBlank(s[1..]);
      assert s == [s[0]] + s[1..];
    }
  }

  lemma TrimEndBlank(s: string)
    ensures TrimEnd(s) == "" <==> Blank(s)
  {
    if s != "" && IsSpace(s[|s| - 1]) {
      TrimEndBlank(s[..|s| - 1]);
      assert s == s[..|s| - 1] + [s[|s| - 1]];
    }
  }

  lemma {:induction false} TrimBlank(s: string)
    ensures Trim(s) == "" <==> Blank(s)
  {
    TrimStartBlank(s);
    TrimEndBlank(TrimStart(s));
  }

  /** Trimming takes white space off both ends and nothing else. */
  lemma {:induction false} TrimMeans(s: string) returns (before: string, after: string)
    ensures s == before + Trim(s) + after && Blank(before) && Blank(after)
    ensures Trim(s) != "" ==> !IsSpace(Trim(s)[0]) && !IsSpace(Trim(s)[|Trim(s)| - 1])
  {
    before := TrimStartMeans(s);
    after := TrimEndMeans(TrimStart(s));
  }

  lemma {:induction false} TrimStartMeans(s: string) returns (before: string)
    ensures s == before + TrimStart(s) && Blank(before)
    ensures TrimStart(s) != "" ==> !IsSpace(TrimStart(s)[0])
  {
    before := "";
    if s != "" && IsSpace(s[0]) {
      before := TrimStartMeans(s[1..]);
      before := [s[0]] + before;
    }
  }

  lemma {:induction false} TrimEndMeans(s: string) returns (after: string)
    ensures s == TrimEnd(s) + after && Blank(after)
    ensures TrimEnd(s) != "" ==> !IsSpace(TrimEnd(s)[|TrimEnd(s)| - 1]) && TrimEnd(s)[0] == s[0]
  {
    after := "";
    if s != "" && IsSpace(s[|s| - 1]) {
      after := TrimEndMeans(s[..|s| - 1]);
      after := after + [s[|s| - 1]];
    }
  }

  // ---------------------------------------------------------------- the row table

  datatype Table = Table(headers: seq<string>, rows: seq<Row>)

  function StripBom(t: string): string {
    if t != "" && t[0] == BOM then t[1..] else t
  }

  predicate HasValue(values: Record) {
    exists i :: 0 <= i < |values| && Trim(values[i]) != ""
  }

  function Decimal(n: nat): string {
    if n < 10 then ['0' + n as char] else Decimal(n / 10) + ['0' + (n % 10) as char]
  }

  /** A numeral reads back as its number. */
  function ReadDecimal(t: string): int {
    if t == "" then 0 else 10 * ReadDecimal(t[..|t| - 1]) + (t[|t| - 1] as int - '0' as int)
  }

  lemma {:induction false} DecimalReadsBack(n: nat)
    ensures ReadDecimal(Decimal(n)) == n && Decimal(n) != ""
    ensures forall i :: 0 <= i < |Decimal(n)| ==> '0' <= Decimal(n)[i] <= '9'
    ensures n > 0 ==> Decimal(n)[0] != '0'
  {
    var t := Decimal(n);
    if n < 10 {
      assert t[..0] == "";
    } else {
      DecimalReadsBack(n / 10);
      assert t[..|t| - 1] == Decimal(n / 10);
    }
  }

  function ColumnName(header: string, index: nat): string {
    if header == "" then "column_" + Decimal(index) else header
  }

  /** The object made from a record: a repeated header keeps its last value, a missing value
      is the empty string, values beyond the last header are dropped. */
  function MakeRow(headers: seq<string>, values: Record): Row {
    if headers == [] then map[] else
      var k := |headers| - 1;
      MakeRow(headers[..k], values)[ColumnName(headers[k], k) := if k < |values| then values[k] else ""]
  }

  lemma {:induction false} ColumnIsHeader(headers: seq<string>, values: Record, name: string)
    ensures name in MakeRow(headers, values) <==> exists k :: 0 <= k < |headers| && ColumnName(headers[k], k) == name
  {
    hide ColumnName;
    if headers != [] {
      var n := |headers| - 1;
      ColumnIsHeader(headers[..n], values, name);
      assert forall k :: 0 <= k < n ==> headers[..n][k] == headers[k];
    }
  }

  /** The columns of a row are the header names, whatever the values. */
  lemma {:induction false} RowHasColumns(headers: seq<string>, values: Record)
    ensures MakeRow(headers, values).Keys == set k | 0 <= k < |headers| :: ColumnName(headers[k], k)
  {
    hide ColumnName, MakeRow;
    forall name ensures name in MakeRow(headers, values)
                        <==> exists k :: 0 <= k < |headers| && ColumnName(headers[k], k) == name {
      ColumnIsHeader(headers, values, name);
    }
  }

  /** A column holds the value at its own position, unless a later column has the same name. */
  lemma {:induction false} RowAtColumn(headers: seq<string>, values: Record, k: nat)
    requires k < |headers|
    requires forall j :: k < j < |headers| ==> ColumnName(headers[j], j) != ColumnName(headers[k], k)
    ensures ColumnName(headers[k], k) in MakeRow(headers, values)
    ensures MakeRow(headers, values)[ColumnName(headers[k], k)] == if k < |values| then values[k] else ""
  {
    hide ColumnName;
    var n := |headers| - 1;
    if k < n {
      RowAtColumn(headers[..n], values, k);
    }
  }

  function RowsOf(headers: seq<string>, records: seq<Record>): seq<Row> {
    var kept := Filter(HasValue, records);
    seq(|kept|, i requires 0 <= i < |kept| => MakeRow(headers, kept[i]))
  }

  function HeadersOf(record: Record): seq<string> {
    seq(|record|, i requires 0 <= i < |record| => Trim(record[i]))
  }

  function TableOf(records: seq<Record>): Table
    requires records != []
  {
    var headers := HeadersOf(records[0]);
    Table(headers, RowsOf(headers, records[1..]))
  }

  function CsvTable(text: string): Table {
    var source := StripBom(text);
    if Trim(source) == "" then Table([], []) else TableOf(Records(source))
  }

  method ParseCsv(text: string) returns (table: Table)
    ensures table == CsvTable(text)
  {
    var source := StripBom(text);
    if Trim(source) == "" {
      return Table([], []);
    }
    var records := ParseRecords(source);
    table := TableOf(records);
  }

  lemma RowsConcat(headers: seq<string>, a: seq<Record>, b: seq<Record>)
    ensures RowsOf(headers, a + b) == RowsOf(headers, a) + RowsOf(headers, b)
  {
    hide HasValue, MakeRow, Filter;
    FilterConcat(HasValue, a, b);
  }

  // ---------------------------------------------------------------- the byte order mark

  /** `s` with a byte order mark put before the very first field. */
  function MarkFirst(s: Scan): Scan {
    if s.records != [] then
      if s.records[0] == [] then s
      else s.(records := s.records[0 := s.records[0][0 := [BOM] + s.records[0][0]]])
    else if s.row != [] then s.(row := s.row[0 := [BOM] + s.row[0]])
    else s.(field := [BOM] + s.field)
  }

  predicate NoEmptyRecord(s: Scan) {
    forall i :: 0 <= i < |s.records| ==> s.records[i] != []
  }

  lemma {:induction false} StepMarked(s: Scan, c: char)
    requires NoEmptyRecord(s)
    ensures NoEmptyRecord(Step(s, c))
    ensures Step(MarkFirst(s), c) == MarkFirst(Step(s, c))
  {
    if s.records == [] {
      if s.row == [] {
        assert [BOM] + (s.field + [c]) == ([BOM] + s.field) + [c];
        assert s.row + [s.field] == [s.field];
        assert s.row + [[BOM] + s.field] == [s.field][0 := [BOM] + s.field];
        assert s.records + [[[BOM] + s.field]] == [[s.field]][0 := [[BOM] + s.field]];
      } else {
        assert s.row[0 := [BOM] + s.row[0]] + [s.field] == (s.row + [s.field])[0 := [BOM] + s.row[0]];
      }
    } else {
      var first := s.records[0][0 := [BOM] + s.records[0][0]];
      var ended := s.row + [s.field];
      assert s.records[0 := first] + [ended] == (s.records + [ended])[0 := first];
    }
  }

  lemma {:induction false} RunMarked(t: string)
    ensures Run([BOM] + t, Start) == MarkFirst(Run(t, Start))
    ensures NoEmptyRecord(Run(t, Start))
  {
    var marked := [BOM] + t;
    if t == "" {
      assert marked[..0] == "";
    } else {
      RunMarked(t[..|t| - 1]);
      assert marked[..|t|] == [BOM] + t[..|t| - 1];
      StepMarked(Run(t[..|t| - 1], Start), t[|t| - 1]);
    }
  }

  /** A leading byte order mark never shows in the table, because headers are trimmed and the
      mark counts as white space: with or without it the table is that of the scanned text. */
  lemma {:induction false} CsvTableIgnoresBom(t: string)
    ensures CsvTable(t) == if Blank(t) then Table([], []) else TableOf(Records(t))
  {
    var source := StripBom(t);
    TrimBlank(source);
    if t != "" && t[0] == BOM {
      assert t == [BOM] + source;
      RunMarked(source);
      var marked, plain := Records(t), Records(source);
      assert marked[1..] == plain[1..];
      assert forall x: string :: Trim([BOM] + x) == Trim(x) by {
        forall x: string ensures TrimStart([BOM] + x) == TrimStart(x) {
          assert ([BOM] + x)[1..] == x;
        }
      }
      assert HeadersOf(marked[0]) == HeadersOf(plain[0]);
    }
  }

  lemma {:induction false} RunBlank(t: string)
    requires Blank(t)
    ensures var e := Run(t, Start);
      && e.mode.Plain? && e.row == [] && Blank(e.field)
      && forall i :: 0 <= i < |e.records| ==> |e.records[i]| == 1 && Blank(e.records[i][0])
  {
    if t != "" {
      RunBlank(t[..|t| - 1]);
      assert t[|t| - 1] in t;
    }
  }

  /** Testing first for a text of white space only changes no row: such a text has none. */
  lemma {:induction false} CsvRowsOfScan(t: string)
    ensures CsvTable(t).rows == TableOf(Records(t)).rows
  {
    CsvTableIgnoresBom(t);
    if Blank(t) {
      RunBlank(t);
      forall i | 0 <= i < |Records(t)| ensures !HasValue(Records(t)[i]) {
        TrimBlank(Records(t)[i][0]);
      }
      FilterNone(HasValue, Records(t)[1..]);
    }
  }
}
