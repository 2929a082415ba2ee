/** A printer after section 2 of RFC 4180, and the proof that the ledger reader undoes it. */
module CsvPrinter {
  import opened Sequences
  import opened CsvScanner

  /** A field with the writer's choice to quote it. */
  datatype Cell = Cell(text: string, quoted: bool)

  predicate NeedsQuotes(t: string) {
    '"' in t || ',' in t || '\n' in t || '\r' in t
  }

  predicate Printable(line: seq<Cell>) {
    && line != []
    && forall i :: 0 <= i < |line| && NeedsQuotes(line[i].text) ==> line[i].quoted
  }

  predicate AllPrintable(lines: seq<seq<Cell>>) {
    forall i :: 0 <= i < |lines| ==> Printable(lines[i])
  }

  datatype LineBreak = LF | CRLF {
    function Text(): string { if LF? then "\n" else "\r\n" }
  }

  function Escape(t: string): string {
    if t == "" then "" else Escape(t[..|t| - 1]) + EscapeChar(t[|t| - 1])
  }

  function EscapeChar(c: char): string {
    if c == '"' then ['"', '"'] else [c]
  }

  function PrintCell(c: Cell): string {
    if c.quoted then ['"'] + Escape(c.text) + ['"'] else c.text
  }

  function PrintLine(line: seq<Cell>): string
    requires line != []
  {
    var k := |line| - 1;
    (if k == 0 then "" else PrintLine(line[..k]) + [',']) + PrintCell(line[k])
  }

  /** Every line followed by the line break. */
  function PrintLines(lines: seq<seq<Cell>>, eol: LineBreak): string
    requires AllPrintable(lines)
  {
    if lines == [] then "" else
      var k := |lines| - 1;
      PrintLines(lines[..k], eol) + (PrintLine(lines[k]) + eol.Text())
  }

  /** The last line break is optional (rule 2 of that section). */
  function Print(lines: seq<seq<Cell>>, eol: LineBreak, finalBreak: bool): string
    requires lines != [] && AllPrintable(lines)
  {
    var k := |lines| - 1;
    if finalBreak then PrintLines(lines, eol) else PrintLines(lines[..k], eol) + PrintLine(lines[k])
  }

  function Texts(line: seq<Cell>): Record {
    seq(|line|, i requires 0 <= i < |line| => line[i].text)
  }

  function Contents(lines: seq<seq<Cell>>): seq<Record> {
    seq(|lines|, i requires 0 <= i < |lines| => Texts(lines[i]))
  }

  // ---------------------------------------------------------------- scanning printed text

  lemma {:induction false} RunEscaped(t: string, s: Scan)
    requires s.mode.Quoted?
    ensures Run(Escape(t), s) == s.(field := s.field + t)
  {
    hide Run;
    RunNothing(s);
    if t != "" {
      var k := |t| - 1;
      RunEscaped(t[..k], s);
      RunEscapedChar(t[k], s.(field := s.field + t[..k]));
      RunConcat(Escape(t[..k]), EscapeChar(t[k]), s);
      assert s.field + t == (s.field + t[..k]) + [t[k]];
    } else {
      assert s.field + t == s.field;
    }
  }

  lemma {:induction false} RunEscapedChar(c: char, s: Scan)
    requires s.mode.Quoted?
    ensures Run(EscapeChar(c), s) == s.(field := s.field + [c])
  {
    RunOne(c, s);
    if c == '"' {
      assert EscapeChar(c) == ['"'] + ['"'];
      RunConcat(['"'], ['"'], s);
      RunOne('"', s.(mode := Closing));
    }
  }

  lemma {:induction false} RunBare(t: string, s: Scan)
    requires s.mode.Plain? && !NeedsQuotes(t)
    ensures Run(t, s) == s.(field := s.field + t)
  {
    if t != "" {
      RunBare(t[..|t| - 1], s);
      assert t == t[..|t| - 1] + [t[|t| - 1]];
    }
  }

  /** After a printed field the scanner holds exactly that field and is not inside quotes. */
  lemma {:induction false} RunCell(c: Cell, s: Scan)
    requires s.mode.Plain? && s.field == ""
    requires NeedsQuotes(c.text) ==> c.quoted
    ensures Run(PrintCell(c), s) == s.(mode := if c.quoted then Closing else Plain, field := c.text)
  {
    if c.quoted {
      RunConcat(['"'] + Escape(c.text), ['"'], s);
      RunConcat(['"'], Escape(c.text), s);
      RunOne('"', s);
      var q := s.(mode := Quoted);
      RunEscaped(c.text, q);
      RunOne('"', q.(field := c.text));
    } else {
      RunBare(c.text, s);
    }
  }

  lemma {:induction false} RunLine(line: seq<Cell>, s: Scan)
    requires Printable(line) && AtRecordStart(s)
    ensures var e := Run(PrintLine(line), s);
      !e.mode.Quoted? && e.records == s.records && e.row + [e.field] == Texts(line)
  {
    hide PrintCell, Run, NeedsQuotes;
    var k := |line| - 1;
    if k == 0 {
      assert PrintLine(line) == PrintCell(line[0]);
      assert Texts(line) == s.row + [line[0].text];
      RunCell(line[0], s);
    } else {
      RunLine(line[..k], s);
      RunNextCell(PrintLine(line[..k]), Texts(line[..k]), line[k], s);
      assert Texts(line) == Texts(line[..k]) + [line[k].text];
    }
  }

  lemma {:induction false} RunNextCell(front: string, texts: Record, c: Cell, s: Scan)
    requires NeedsQuotes(c.text) ==> c.quoted
    requires var e := Run(front, s);
      !e.mode.Quoted? && e.records == s.records && e.row + [e.field] == texts
    ensures var e := Run(front + [','] + PrintCell(c), s);
      !e.mode.Quoted? && e.records == s.records && e.row == texts && e.field == c.text
  {
    RunConcat(front + [','], PrintCell(c), s);
    RunConcat(front, [','], s);
    RunOne(',', Run(front, s));
    RunCell(c, Scan(Plain, texts, "", s.records));
  }

  lemma {:induction false} RunBreak(eol: LineBreak, s: Scan)
    requires !s.mode.Quoted?
    ensures Run(eol.Text(), s) == Scan(Plain, [], "", s.records + [s.row + [s.field]])
  {
    if eol.CRLF? {
      assert "\r\n" == ['\r'] + ['\n'];
      RunConcat(['\r'], ['\n'], s);
      RunOne('\r', s);
      RunOne('\n', s.(mode := Plain));
    } else {
      RunOne('\n', s);
    }
  }

  lemma {:induction false} RunLines(lines: seq<seq<Cell>>, eol: LineBreak)
    requires AllPrintable(lines)
    ensures Run(PrintLines(lines, eol), Start) == Scan(Plain, [], "", Contents(lines))
  {
    if lines != [] {
      hide Run, PrintLine, NeedsQuotes, Printable, Contents;
      var k := |lines| - 1;
      RunLines(lines[..k], eol);
      RunPrintedLine(lines[..k], lines[k], eol);
      ContentsSplit(lines);
    }
  }

  lemma ContentsSplit(lines: seq<seq<Cell>>)
    requires lines != []
    ensures Contents(lines) == Contents(lines[..|lines| - 1]) + [Texts(lines[|lines| - 1])]
  {
  }

  lemma {:induction false} RunPrintedLine(front: seq<seq<Cell>>, line: seq<Cell>, eol: LineBreak)
    requires AllPrintable(front) && Printable(line)
    requires Run(PrintLines(front, eol), Start) == Scan(Plain, [], "", Contents(front))
    ensures var e := Run(PrintLines(front, eol) + PrintLine(line), Start);
      !e.mode.Quoted? && e.records == Contents(front) && e.row + [e.field] == Texts(line)
    ensures Run(PrintLines(front, eol) + (PrintLine(line) + eol.Text()), Start)
            == Scan(Plain, [], "", Contents(front) + [Texts(line)])
  {
    var before := PrintLines(front, eol);
    RunConcat(before, PrintLine(line), Start);
    RunLine(line, Run(before, Start));
    RunConcat(before + PrintLine(line), eol.Text(), Start);
    RunBreak(eol, Run(before + PrintLine(line), Start));
    assert before + (PrintLine(line) + eol.Text()) == before + PrintLine(line) + eol.Text();
  }

  /** The scanner is a left inverse of the printer, for every choice of quoting and line break.
      A final line break reads as one more record, holding one empty field. */
  lemma {:induction false} ScanUndoesPrint(lines: seq<seq<Cell>>, eol: LineBreak, finalBreak: bool)
    requires lines != [] && AllPrintable(lines)
    ensures Records(Print(lines, eol, finalBreak))
            == Contents(lines) + if finalBreak then [[""]] else []
  {
    var k := |lines| - 1;
    if finalBreak {
      RunLines(lines, eol);
      var none: Record := [];
      assert none + [""] == [""];
    } else {
      ScanLastLine(lines[..k], lines[k], eol);
      ContentsSplit(lines);
    }
  }

  lemma {:induction false} ScanLastLine(front: seq<seq<Cell>>, line: seq<Cell>, eol: LineBreak)
    requires AllPrintable(front) && Printable(line)
    ensures Records(PrintLines(front, eol) + PrintLine(line)) == Contents(front) + [Texts(line)]
  {
    RunLines(front, eol);
    RunPrintedLine(front, line, eol);
  }

  /** The whole reader undoes the printer: headers are the first line's trimmed fields and the
      rows are the other lines that have a non-blank field.  The one exception is a text of
      white space only, which reads as no table at all. */
  lemma {:induction false} ParseUndoesPrint(lines: seq<seq<Cell>>, eol: LineBreak, finalBreak: bool)
    requires lines != [] && AllPrintable(lines)
    ensures var text := Print(lines, eol, finalBreak);
      CsvTable(text) == TableOf(Contents(lines)) <==> !Blank(text)
    ensures Blank(Print(lines, eol, finalBreak)) ==> CsvTable(Print(lines, eol, finalBreak)) == Table([], [])
  {
    hide CsvTable, Trim, Records;
    var text := Print(lines, eol, finalBreak);
    CsvTableIgnoresBom(text);
    ScanUndoesPrint(lines, eol, finalBreak);
    var contents := Contents(lines);
    var headers := HeadersOf(contents[0]);
    assert Printable(lines[0]) && headers != [];
    if finalBreak {
      assert (contents + [[""]])[1..] == contents[1..] + [[""]];
      RowsConcat(headers, contents[1..], [[""]]);
      TrimBlank("");
      assert RowsOf(headers, [[""]]) == [];
      assert RowsOf(headers, contents[1..]) + [] == RowsOf(headers, contents[1..]);
    } else {
      assert contents + [] == contents;
    }
  }

  // ---------------------------------------------------------------- the parsed rows, cell by cell

  predicate HasText(line: seq<Cell>) {
    exists i :: 0 <= i < |line| && !Blank(line[i].text)
  }

  /** The lines after the first that have a cell with more than white space. */
  function DataLines(lines: seq<seq<Cell>>): seq<seq<Cell>>
    requires lines != []
  {
    Filter(HasText, lines[1..])
  }

  /** A column is named by its trimmed header, or by its number when that is empty. */
  function NameOf(header: seq<Cell>, k: nat): string
    requires k < |header|
  {
    var name := Trim(header[k].text);
    if name != "" then name else "column_" + Decimal(k)
  }

  lemma {:induction false} HasTextMeansValue(line: seq<Cell>)
    ensures HasValue(Texts(line)) <==> HasText(line)
  {
    hide Trim, Blank;
    forall i | 0 <= i < |line| ensures Trim(Texts(line)[i]) != "" <==> !Blank(line[i].text) {
      TrimBlank(line[i].text);
    }
  }

  lemma {:induction false} FilteredContents(lines: seq<seq<Cell>>)
    ensures Filter(HasValue, Contents(lines)) == Contents(Filter(HasText, lines))
  {
    hide HasValue, HasText, Texts;
    if lines != [] {
      FilteredContents(lines[1..]);
      HasTextMeansValue(lines[0]);
      assert Contents(lines)[1..] == Contents(lines[1..]);
    }
  }

  lemma {:induction false} PrintedRows(lines: seq<seq<Cell>>, eol: LineBreak, finalBreak: bool)
    requires lines != [] && AllPrintable(lines)
    ensures CsvTable(Print(lines, eol, finalBreak)).rows == RowsOf(HeadersOf(Texts(lines[0])), Contents(lines[1..]))
  {
    hide CsvTable, Trim, Records, Print, HasValue;
    var text, contents := Print(lines, eol, finalBreak), Contents(lines);
    CsvRowsOfScan(text);
    ScanUndoesPrint(lines, eol, finalBreak);
    var headers := HeadersOf(contents[0]);
    assert contents[1..] == Contents(lines[1..]);
    if finalBreak {
      assert (contents + [[""]])[1..] == contents[1..] + [[""]];
      RowsConcat(headers, contents[1..], [[""]]);
      NoRowOfNothing(headers);
    } else {
      assert contents + [] == contents;
    }
  }

  lemma NoRowOfNothing(headers: seq<string>)
    ensures RowsOf(headers, [[""]]) == []
  {
    TrimBlank("");
    assert !HasValue([""]);
  }

  /** What the reader makes of a printed table, cell by cell: there is a row for each data line, in
      order; its columns are the header names; and each column, unless a later one has the same
      name, holds the text of the line's cell at that position, or nothing if the line is shorter. */
  lemma {:induction false} RowsHoldTheirCells(lines: seq<seq<Cell>>, eol: LineBreak, finalBreak: bool, j: nat, k: nat)
    requires lines != [] && AllPrintable(lines)
    ensures var rows, data, header := CsvTable(Print(lines, eol, finalBreak)).rows, DataLines(lines), lines[0];
      && |rows| == |data|
      && (j < |rows| ==> rows[j].Keys == set i | 0 <= i < |header| :: NameOf(header, i))
      && (j < |rows| && k < |header| && (forall i :: k < i < |header| ==> NameOf(header, i) != NameOf(header, k)) ==>
            NameOf(header, k) in rows[j]
            && rows[j][NameOf(header, k)] == if k < |data[j]| then data[j][k].text else "")
  {
    hide CsvTable, Print, Trim, Filter, HasValue, HasText, MakeRow, Decimal;
    var header, data := lines[0], DataLines(lines);
    var headers := HeadersOf(Texts(header));
    PrintedRows(lines, eol, finalBreak);
    FilteredContents(lines[1..]);
    assert forall i :: 0 <= i < |header| ==> NameOf(header, i) == ColumnName(headers[i], i);
    hide NameOf, ColumnName;
    if j < |data| {
      RowHasColumns(headers, Texts(data[j]));
      assert (set i | 0 <= i < |header| :: NameOf(header, i)) == set i | 0 <= i < |headers| :: ColumnName(headers[i], i);
      if k < |header| && forall i :: k < i < |header| ==> NameOf(header, i) != NameOf(header, k) {
        RowAtColumn(headers, Texts(data[j]), k);
      }
    }
  }
}
