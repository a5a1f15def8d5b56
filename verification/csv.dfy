/** The CSV printer of the exports, and a reader after section 2 of RFC 4180 that undoes it. */
module Csv {
  import opened Prelude

  predicate Special(c: char) { c == ',' || c == '"' || c == '\r' || c == '\n' }

  predicate NeedsQuotes(value: string) { exists i :: 0 <= i < |value| && Special(value[i]) }

  function DoubledChar(c: char): string { if c == '"' then "\"\"" else [c] }

  /** Every quote written twice. */
  function Doubled(value: string): string {
    if value == "" then "" else DoubledChar(value[0]) + Doubled(value[1..])
  }

  function CsvCell(value: string): string {
    if NeedsQuotes(value) then "\"" + Doubled(value) + "\"" else value
  }

  function Joined(values: seq<string>): string {
    if values == [] then ""
    else if |values| == 1 then CsvCell(values[0])
    else CsvCell(values[0]) + "," + Joined(values[1..])
  }

  function CsvRow(values: seq<string>): string { Joined(values) + "\r\n" }

  function CsvText(rows: seq<seq<string>>): string {
    if rows == [] then "" else CsvRow(rows[0]) + CsvText(rows[1..])
  }

  /** A cell is quoted exactly when it holds a comma, a quote, a CR or an LF. */
  lemma {:induction false} CellsPlain(value: string)
    ensures (forall i :: 0 <= i < |value| ==>
               value[i] != ',' && value[i] != '"' && value[i] != '\r' && value[i] != '\n') ==>
      CsvCell(value) == value
    ensures (exists i :: 0 <= i < |value| &&
               (value[i] == ',' || value[i] == '"' || value[i] == '\r' || value[i] == '\n')) ==>
      |CsvCell(value)| >= |value| + 2 && CsvCell(value)[0] == '"' && CsvCell(value)[|CsvCell(value)| - 1] == '"'
  {
    DoubledGrows(value);
  }

  lemma {:induction false} DoubledGrows(value: string)
    ensures |Doubled(value)| >= |value|
  {
    if value != "" { DoubledGrows(value[1..]); }
  }

  // ----- the reader -----

  datatype Mode =
    | Fresh   // at the start of a field
    | Bare    // inside an unquoted field
    | Quoted  // inside a quoted field
    | Leaving // after a quote inside a quoted field

  /** Fields separated by commas, records ended by CRLF, quotes doubled inside quotes; anything else is malformed. */
  function Read(text: string, mode: Mode, field: string, row: seq<string>,
        rows: seq<seq<string>>): Option<seq<seq<string>>>
    decreases |text|
  {
    if text == "" then
      if mode == Quoted then None
      else if mode == Fresh && row == [] then Some(rows)
      else Some(rows + [row + [field]])
    else
      var c, rest := text[0], text[1..];
      if mode == Quoted then
        if c == '"' then Read(rest, Leaving, field, row, rows) else Read(rest, Quoted, field + [c], row, rows)
      else if c == '"' then
        if mode == Leaving then Read(rest, Quoted, field + [c], row, rows)
        else if mode == Fresh then Read(rest, Quoted, "", row, rows)
        else None
      else if c == ',' then Read(rest, Fresh, "", row + [field], rows)
      else if c == '\r' then
        if rest != "" && rest[0] == '\n' then Read(rest[1..], Fresh, "", [], rows + [row + [field]]) else None
      else if c == '\n' || mode == Leaving then None
      else Read(rest, Bare, field + [c], row, rows)
  }

  function ReadCsv(text: string): Option<seq<seq<string>>> { Read(text, Fresh, "", [], []) }

  // ----- round trip -----

  lemma {:induction false} PlainStep(c: char, rest: string, mode: Mode, field: string, row: seq<string>,
        rows: seq<seq<string>>)
    ensures mode == Quoted && c != '"' ==>
      Read([c] + rest, mode, field, row, rows) == Read(rest, Quoted, field + [c], row, rows)
    ensures (mode == Fresh || mode == Bare) && !Special(c) ==>
      Read([c] + rest, mode, field, row, rows) == Read(rest, Bare, field + [c], row, rows)
  {
    assert ([c] + rest)[1..] == rest;
  }

  lemma {:induction false} QuoteStep(rest: string, mode: Mode, field: string, row: seq<string>, rows: seq<seq<string>>)
    ensures mode == Fresh ==> Read("\"" + rest, mode, field, row, rows) == Read(rest, Quoted, "", row, rows)
    ensures mode == Quoted ==> Read("\"" + rest, mode, field, row, rows) == Read(rest, Leaving, field, row, rows)
    ensures mode == Leaving ==> Read("\"" + rest, mode, field, row, rows) == Read(rest, Quoted, field + "\"", row, rows)
  {
    assert ("\"" + rest)[1..] == rest;
  }

  lemma {:induction false} QuotedReads(value: string, rest: string, field: string, row: seq<string>,
        rows: seq<seq<string>>)
    ensures Read(Doubled(value) + rest, Quoted, field, row, rows) == Read(rest, Quoted, field + value, row, rows)
  {
    hide Read;
    if value == "" {
      assert Doubled(value) + rest == rest;
      assert field + value == field;
    } else {
      var tail := Doubled(value[1..]) + rest;
      assert field + [value[0]] + value[1..] == field + value;
      QuotedReads(value[1..], rest, field + [value[0]], row, rows);
      QuotedStep(value[0], tail, field, row, rows);
      assert Doubled(value) + rest == DoubledChar(value[0]) + tail;
    }
  }

  lemma {:induction false} QuotedStep(c: char, rest: string, field: string, row: seq<string>, rows: seq<seq<string>>)
    ensures Read(DoubledChar(c) + rest, Quoted, field, row, rows) == Read(rest, Quoted, field + [c], row, rows)
  {
    hide Read;
    if c == '"' {
      assert DoubledChar(c) + rest == "\"" + ("\"" + rest);
      QuoteStep("\"" + rest, Quoted, field, row, rows);
      QuoteStep(rest, Leaving, field, row, rows);
    } else {
      PlainStep(c, rest, Quoted, field, row, rows);
    }
  }

  lemma {:induction false} BareReads(value: string, rest: string, field: string, row: seq<string>,
        rows: seq<seq<string>>)
    requires !NeedsQuotes(value)
    ensures Read(value + rest, Bare, field, row, rows) == Read(rest, Bare, field + value, row, rows)
  {
    hide Read;
    if value == "" {
      assert value + rest == rest;
      assert field + value == field;
    } else {
      assert forall i :: 0 <= i < |value[1..]| ==> value[1..][i] == value[i + 1];
      BareReads(value[1..], rest, field + [value[0]], row, rows);
      assert value + rest == [value[0]] + (value[1..] + rest);
      PlainStep(value[0], value[1..] + rest, Bare, field, row, rows);
      assert field + [value[0]] + value[1..] == field + value;
    }
  }

  /** What follows a field: a comma, or the end of its record. */
  predicate EndsField(rest: string) {
    rest != "" && (rest[0] == ',' || (|rest| >= 2 && rest[0] == '\r' && rest[1] == '\n'))
  }

  function AfterField(rest: string, value: string, row: seq<string>, rows: seq<seq<string>>): Option<seq<seq<string>>>
    requires EndsField(rest)
  {
    if rest[0] == ',' then Read(rest[1..], Fresh, "", row + [value], rows)
    else Read(rest[2..], Fresh, "", [], rows + [row + [value]])
  }

  lemma {:induction false} FieldEnds(mode: Mode, rest: string, value: string, row: seq<string>, rows: seq<seq<string>>)
    requires EndsField(rest) && mode != Quoted
    ensures Read(rest, mode, value, row, rows) == AfterField(rest, value, row, rows)
  {
    if rest[0] != ',' {
      assert rest[1..][1..] == rest[2..];
    }
  }

  lemma {:induction false} CellReads(value: string, rest: string, row: seq<string>, rows: seq<seq<string>>)
    requires EndsField(rest)
    ensures Read(CsvCell(value) + rest, Fresh, "", row, rows) == AfterField(rest, value, row, rows)
  {
    hide Read, AfterField, EndsField, Doubled;
    if NeedsQuotes(value) {
      QuotedCellReads(value, rest, row, rows);
    } else if value == "" {
      assert CsvCell(value) + rest == rest;
      FieldEnds(Fresh, rest, value, row, rows);
    } else {
      BareCellReads(value, rest, row, rows);
    }
  }

  lemma {:induction false} QuotedCellReads(value: string, rest: string, row: seq<string>, rows: seq<seq<string>>)
    requires EndsField(rest)
    ensures Read("\"" + Doubled(value) + "\"" + rest, Fresh, "", row, rows) == AfterField(rest, value, row, rows)
  {
    hide Read, AfterField, EndsField, Doubled;
    var end := "\"" + rest;
    assert "\"" + Doubled(value) + "\"" + rest == "\"" + (Doubled(value) + end);
    QuoteStep(Doubled(value) + end, Fresh, "", row, rows);
    QuotedReads(value, end, "", row, rows);
    assert "" + value == value;
    QuoteStep(rest, Quoted, value, row, rows);
    FieldEnds(Leaving, rest, value, row, rows);
  }

  lemma {:induction false} BareCellReads(value: string, rest: string, row: seq<string>, rows: seq<seq<string>>)
    requires EndsField(rest) && value != "" && !NeedsQuotes(value)
    ensures Read(value + rest, Fresh, "", row, rows) == AfterField(rest, value, row, rows)
  {
    hide Read, AfterField, EndsField;
    var tail := value[1..];
    assert value + rest == [value[0]] + (tail + rest);
    PlainStep(value[0], tail + rest, Fresh, "", row, rows);
    assert "" + [value[0]] == [value[0]] && [value[0]] + tail == value;
    assert forall i :: 0 <= i < |tail| ==> tail[i] == value[i + 1];
    BareReads(tail, rest, [value[0]], row, rows);
    FieldEnds(Bare, rest, value, row, rows);
  }

  lemma {:induction false} RowReads(values: seq<string>, rest: string, row: seq<string>, rows: seq<seq<string>>)
    requires values != []
    ensures Read(CsvRow(values) + rest, Fresh, "", row, rows) == Read(rest, Fresh, "", [], rows + [row + values])
  {
    hide CsvCell, Read;
    if |values| == 1 {
      var end := "\r\n" + rest;
      assert CsvRow(values) + rest == CsvCell(values[0]) + end;
      CellReads(values[0], end, row, rows);
      assert end[2..] == rest;
      assert values == [values[0]];
    } else {
      var more := CsvRow(values[1..]) + rest;
      assert CsvRow(values) + rest == CsvCell(values[0]) + ("," + more);
      CellReads(values[0], "," + more, row, rows);
      assert ("," + more)[1..] == more;
      RowReads(values[1..], rest, row + [values[0]], rows);
      assert row + [values[0]] + values[1..] == row + values;
    }
  }

  lemma {:induction false} TextReads(text: seq<seq<string>>, rows: seq<seq<string>>)
    requires forall i :: 0 <= i < |text| ==> text[i] != []
    ensures Read(CsvText(text), Fresh, "", [], rows) == Some(rows + text)
  {
    hide CsvRow;
    if text == [] {
      assert rows + text == rows;
    } else {
      RowReads(text[0], CsvText(text[1..]), [], rows);
      assert [] + text[0] == text[0];
      TextReads(text[1..], rows + [text[0]]);
      assert rows + [text[0]] + text[1..] == rows + text;
    }
  }

  /** A row without fields prints like a row with one empty field. */
  function Padded(rows: seq<seq<string>>): (padded: seq<seq<string>>)
    ensures |padded| == |rows| && forall i :: 0 <= i < |rows| ==> padded[i] == if rows[i] == [] then [""] else rows[i]
  {
    seq(|rows|, i requires 0 <= i < |rows| => if rows[i] == [] then [""] else rows[i])
  }

  lemma {:induction false} PaddedPrintsSame(rows: seq<seq<string>>)
    ensures CsvText(Padded(rows)) == CsvText(rows)
  {
    if rows != [] {
      assert Padded(rows)[1..] == Padded(rows[1..]);
      PaddedPrintsSame(rows[1..]);
    }
  }

  /** A reader after section 2 of RFC 4180 recovers exactly the rows, whatever commas, quotes, CRs and LFs they
      hold, if and only if every row has at least one field. */
  lemma {:induction false} CsvRoundTrip(rows: seq<seq<string>>)
    ensures ReadCsv(CsvText(rows)) == Some(rows) <==> forall i :: 0 <= i < |rows| ==> rows[i] != []
  {
    hide CsvText, Read;
    PaddedPrintsSame(rows);
    TextReads(Padded(rows), []);
    assert [] + Padded(rows) == Padded(rows);
    if forall i :: 0 <= i < |rows| ==> rows[i] != [] {
      assert Padded(rows) == rows;
    }
  }

  /** So two different tables never print the same text. */
  lemma {:induction false} CsvInjective(rows: seq<seq<string>>, others: seq<seq<string>>)
    requires forall i :: 0 <= i < |rows| ==> rows[i] != []
    requires forall i :: 0 <= i < |others| ==> others[i] != []
    requires CsvText(rows) == CsvText(others)
    ensures rows == others
  {
    CsvRoundTrip(rows);
    CsvRoundTrip(others);
  }

  lemma {:induction false} CsvTextSnoc(rows: seq<seq<string>>, row: seq<string>)
    ensures CsvText(rows + [row]) == CsvText(rows) + CsvRow(row)
  {
    hide CsvRow;
    if rows == [] {
      assert rows + [row] == [row];
      assert [row][1..] == [];
      assert CsvRow(row) + "" == CsvRow(row);
    } else {
      assert (rows + [row])[1..] == rows[1..] + [row];
      CsvTextSnoc(rows[1..], row);
      assert CsvRow(rows[0]) + (CsvText(rows[1..]) + CsvRow(row)) == CsvRow(rows[0]) + CsvText(rows[1..]) + CsvRow(row);
    }
  }
}
