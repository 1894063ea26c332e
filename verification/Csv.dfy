/** CSV export, read back by a reader that follows section 2 of RFC 4180. */
module Csv {
  import opened Numerals

  /** Amounts are whole rupiah. */
  datatype Cell = Text(text: string) | Number(value: int)

  const BOM: char := '\U{FEFF}'
  const CRLF := "\r\n"

  function Join(parts: seq<string>, separator: string): string {
    if |parts| == 0 then "" else if |parts| == 1 then parts[0] else parts[0] + separator + Join(parts[1..], separator)
  }

  function NumberText(n: int): string { if n < 0 then "-" + Decimal(-n) else Decimal(n) }

  predicate IsFormulaPrefix(c: char) { c == '=' || c == '+' || c == '-' || c == '@' || c == '\t' || c == '\r' }

  /** The text that a cell stands for: user text that a spreadsheet would execute gets a prefix. */
  function Guarded(cell: Cell): string {
    match cell
    case Number(n) => NumberText(n)
    case Text(text) => if text != "" && IsFormulaPrefix(text[0]) then "'" + text else text
  }

  predicate IsSpecial(c: char) { c == '"' || c == ',' || c == '\r' || c == '\n' }

  predicate HasSpecial(s: string) { exists i :: 0 <= i < |s| && IsSpecial(s[i]) }

  function DoubleQuotes(s: string): string {
    if s == "" then "" else (if s[0] == '"' then "\"\"" else [s[0]]) + DoubleQuotes(s[1..])
  }

  function Quote(guarded: string): string {
    if HasSpecial(guarded) then "\"" + DoubleQuotes(guarded) + "\"" else guarded
  }

  function EscapeCell(cell: Cell): string {
    match cell
    case Number(n) => NumberText(n)
    case Text(_) => Quote(Guarded(cell))
  }

  function RowText(row: seq<Cell>): string {
    Join(seq(|row|, i requires 0 <= i < |row| => EscapeCell(row[i])), ",")
  }

  function ToCsv(rows: seq<seq<Cell>>): string {
    [BOM] + Join(seq(|rows|, i requires 0 <= i < |rows| => RowText(rows[i])), CRLF) + CRLF
  }

  // ----- the reader -----

  datatype Field = Field(text: string, rest: string) | BadField
  datatype Record = Record(fields: seq<string>, rest: string) | BadRecord
  datatype File = File(records: seq<seq<string>>) | BadFile

  function Prepend(c: char, field: Field): Field {
    if field.BadField? then BadField else Field([c] + field.text, field.rest)
  }

  /** The rest of an escaped field, up to its closing quote. */
  function ReadQuoted(s: string): (field: Field)
    ensures field.Field? ==> |field.rest| < |s|
  {
    if s == "" then BadField
    else if s[0] != '"' then Prepend(s[0], ReadQuoted(s[1..]))
    else if |s| > 1 && s[1] == '"' then Prepend('"', ReadQuoted(s[2..]))
    else Field("", s[1..])
  }

  function ReadPlain(s: string): (field: Field)
    ensures field.Field? && |field.rest| <= |s|
  {
    if s == "" || IsSpecial(s[0]) then Field("", s) else Prepend(s[0], ReadPlain(s[1..]))
  }

  function ReadField(s: string): (field: Field)
    ensures field.Field? ==> |field.rest| <= |s|
  {
    if s != "" && s[0] == '"' then ReadQuoted(s[1..]) else ReadPlain(s)
  }

  function ReadRecord(s: string): (record: Record)
    ensures record.Record? ==> |record.rest| <= |s| && (s != "" ==> |record.rest| < |s|)
    decreases |s|
  {
    var field := ReadField(s);
    if field.BadField? then BadRecord
    else if field.rest == "" then Record([field.text], "")
    else if field.rest[0] == ',' then
      var more := ReadRecord(field.rest[1..]);
      if more.BadRecord? then BadRecord else Record([field.text] + more.fields, more.rest)
    else if |field.rest| >= 2 && field.rest[..2] == CRLF then Record([field.text], field.rest[2..])
    else BadRecord
  }

  function ReadFile(s: string): File
    decreases |s|
  {
    if s == "" then File([])
    else
      var record := ReadRecord(s);
      if record.BadRecord? then BadFile
      else
        var more := ReadFile(record.rest);
        if more.BadFile? then BadFile else File([record.fields] + more.records)
  }

  function ReadCsv(s: string): File {
    if s == "" || s[0] != BOM then BadFile else ReadFile(s[1..])
  }

  // ----- the round trip -----

  predicate Delimits(rest: string) {
    rest == "" || rest[0] == ',' || (|rest| >= 2 && rest[..2] == CRLF)
  }

  lemma {:induction false} QuotedReadsBack(s: string, rest: string)
    requires Delimits(rest)
    ensures ReadQuoted(DoubleQuotes(s) + "\"" + rest) == Field(s, rest)
  {
    var whole := DoubleQuotes(s) + "\"" + rest;
    if s == "" {
      assert whole == "\"" + rest;
      assert whole[1..] == rest;
    } else {
      QuotedReadsBack(s[1..], rest);
      var tail := DoubleQuotes(s[1..]) + "\"" + rest;
      assert whole == (if s[0] == '"' then "\"\"" else [s[0]]) + tail;
      if s[0] == '"' { assert whole[2..] == tail; } else { assert whole[1..] == tail; }
      assert [s[0]] + s[1..] == s;
    }
  }

  lemma {:induction false} PlainReadsBack(s: string, rest: string)
    requires Delimits(rest) && !HasSpecial(s)
    ensures ReadPlain(s + rest) == Field(s, rest)
  {
    if s == "" {
      assert s + rest == rest;
      assert rest != "" ==> IsSpecial(rest[0]);
    } else {
      assert (s + rest)[1..] == s[1..] + rest;
      assert forall i :: 0 <= i < |s[1..]| ==> s[1..][i] == s[i + 1];
      PlainReadsBack(s[1..], rest);
      assert [s[0]] + s[1..] == s;
    }
  }

  lemma FieldOpens(tail: string)
    ensures ReadField("\"" + tail) == ReadQuoted(tail)
  {
    assert ("\"" + tail)[1..] == tail;
  }

  lemma QuotedFieldReadsBack(guarded: string, rest: string)
    requires Delimits(rest)
    ensures ReadField("\"" + DoubleQuotes(guarded) + "\"" + rest) == Field(guarded, rest)
  {
    QuotedReadsBack(guarded, rest);
    FieldOpens(DoubleQuotes(guarded) + "\"" + rest);
    Regroup("\"", DoubleQuotes(guarded), "\"", rest);
  }

  lemma Regroup(a: string, b: string, c: string, d: string)
    ensures a + b + c + d == a + (b + c + d)
    ensures a + b + c + d == a + (b + (c + d))
  {
  }

  lemma PlainFieldReadsBack(guarded: string, rest: string)
    requires Delimits(rest) && !HasSpecial(guarded)
    ensures ReadField(guarded + rest) == Field(guarded, rest)
  {
    PlainReadsBack(guarded, rest);
    var whole := guarded + rest;
    assert guarded != "" ==> whole[0] == guarded[0] && !IsSpecial(guarded[0]);
    assert guarded == "" ==> whole == rest;
  }

  lemma QuoteReadsBack(guarded: string, rest: string)
    requires Delimits(rest)
    ensures ReadField(Quote(guarded) + rest) == Field(guarded, rest)
  {
    if HasSpecial(guarded) { QuotedFieldReadsBack(guarded, rest); } else { PlainFieldReadsBack(guarded, rest); }
  }

  lemma CellReadsBack(cell: Cell, rest: string)
    requires Delimits(rest)
    ensures ReadField(EscapeCell(cell) + rest) == Field(Guarded(cell), rest)
  {
    if cell.Number? { assert !HasSpecial(NumberText(cell.value)); }
    QuoteReadsBack(Guarded(cell), rest);
  }

  /** What a reader can recover of a row: a row without cells is a line with one empty field. */
  function Fields(row: seq<Cell>): (fields: seq<string>)
    ensures |fields| == if row == [] then 1 else |row|
    ensures forall i :: 0 <= i < |row| ==> fields[i] == Guarded(row[i])
  {
    if row == [] then [""] else seq(|row|, i requires 0 <= i < |row| => Guarded(row[i]))
  }

  lemma RecordEnds(s: string, text: string, rest: string)
    requires ReadField(s) == Field(text, rest) && |rest| >= 2 && rest[..2] == CRLF
    ensures ReadRecord(s) == Record([text], rest[2..])
  {
    assert rest[0] == CRLF[0];
  }

  lemma RecordContinues(s: string, text: string, rest: string, fields: seq<string>, after: string)
    requires ReadField(s) == Field(text, "," + rest) && ReadRecord(rest) == Record(fields, after)
    ensures ReadRecord(s) == Record([text] + fields, after)
  {
    assert ("," + rest)[1..] == rest;
  }

  lemma {:induction false} RowReadsBack(row: seq<Cell>, rest: string)
    requires |rest| >= 2 && rest[..2] == CRLF
    ensures ReadRecord(RowText(row) + rest) == Record(Fields(row), rest[2..])
    decreases |row|
  {
    if |row| <= 1 {
      ShortRowReadsBack(row, rest);
    } else {
      RowReadsBack(row[1..], rest);
      LongRowReadsBack(row, RowText(row[1..]), rest);
    }
  }

  lemma LongRowReadsBack(row: seq<Cell>, later: string, rest: string)
    requires |row| > 1 && later == RowText(row[1..]) && |rest| >= 2
    requires ReadRecord(later + rest) == Record(Fields(row[1..]), rest[2..])
    ensures ReadRecord(RowText(row) + rest) == Record(Fields(row), rest[2..])
  {
    RowSplits(row);
    Regroup(EscapeCell(row[0]), ",", later, rest);
    var tail := "," + (later + rest);
    CellReadsBack(row[0], tail);
    RecordContinues(EscapeCell(row[0]) + tail, Guarded(row[0]), later + rest, Fields(row[1..]), rest[2..]);
    assert Fields(row) == [Guarded(row[0])] + Fields(row[1..]);
  }

  lemma ShortRowReadsBack(row: seq<Cell>, rest: string)
    requires |row| <= 1 && |rest| >= 2 && rest[..2] == CRLF
    ensures ReadRecord(RowText(row) + rest) == Record(Fields(row), rest[2..])
  {
    if row == [] {
      QuoteReadsBack("", rest);
      assert RowText(row) + rest == "" + rest;
      RecordEnds(RowText(row) + rest, "", rest);
    } else {
      CellReadsBack(row[0], rest);
      RecordEnds(RowText(row) + rest, Guarded(row[0]), rest);
      assert Fields(row) == [Guarded(row[0])];
    }
  }

  lemma RowSplits(row: seq<Cell>)
    requires |row| > 1
    ensures RowText(row) == EscapeCell(row[0]) + "," + RowText(row[1..])
  {
    var parts := seq(|row|, i requires 0 <= i < |row| => EscapeCell(row[i]));
    var more := row[1..];
    assert parts[1..] == seq(|more|, i requires 0 <= i < |more| => EscapeCell(more[i]));
  }

  function Body(rows: seq<seq<Cell>>): string {
    Join(seq(|rows|, i requires 0 <= i < |rows| => RowText(rows[i])), CRLF) + CRLF
  }

  lemma BodySplits(rows: seq<seq<Cell>>)
    requires |rows| > 1
    ensures Body(rows) == RowText(rows[0]) + (CRLF + Body(rows[1..]))
  {
    var parts := seq(|rows|, i requires 0 <= i < |rows| => RowText(rows[i]));
    var more := rows[1..];
    assert parts[1..] == seq(|more|, i requires 0 <= i < |more| => RowText(more[i]));
    JoinSplits(parts, CRLF);
  }

  lemma JoinSplits(parts: seq<string>, separator: string)
    requires |parts| > 1
    ensures Join(parts, separator) + separator
      == parts[0] + (separator + (Join(parts[1..], separator) + separator))
  {
  }

  /** What a reader can recover of a table: a table without rows is one empty line. */
  function Records(rows: seq<seq<Cell>>): (records: seq<seq<string>>)
    ensures |records| == if rows == [] then 1 else |rows|
    ensures forall i :: 0 <= i < |rows| ==> records[i] == Fields(rows[i])
  {
    if rows == [] then [[""]] else seq(|rows|, i requires 0 <= i < |rows| => Fields(rows[i]))
  }

  lemma FileContinues(s: string, fields: seq<string>, rest: string, records: seq<seq<string>>)
    requires s != "" && ReadRecord(s) == Record(fields, rest) && ReadFile(rest) == File(records)
    ensures ReadFile(s) == File([fields] + records)
  {
  }

  lemma {:induction false} BodyReadsBack(rows: seq<seq<Cell>>)
    ensures ReadFile(Body(rows)) == File(Records(rows))
    decreases |rows|
  {
    if |rows| <= 1 {
      var row := if rows == [] then [] else rows[0];
      assert Body(rows) == RowText(row) + CRLF;
      RowReadsBack(row, CRLF);
      assert CRLF[2..] == "" && ReadFile("") == File([]);
      FileContinues(Body(rows), Fields(row), "", []);
      assert Records(rows) == [Fields(row)] + [];
    } else {
      var tail := CRLF + Body(rows[1..]);
      BodySplits(rows);
      assert tail[..2] == CRLF && tail[2..] == Body(rows[1..]);
      RowReadsBack(rows[0], tail);
      BodyReadsBack(rows[1..]);
      FileContinues(Body(rows), Fields(rows[0]), Body(rows[1..]), Records(rows[1..]));
      assert Records(rows) == [Fields(rows[0])] + Records(rows[1..]);
    }
  }

  /** Every table reads back, whatever quotes, commas or line breaks its cells contain: as many
      records and fields as it has rows and cells, each field the guarded cell. */
  lemma CsvReadsBack(rows: seq<seq<Cell>>)
    ensures ReadCsv(ToCsv(rows)) == File(Records(rows)) && ToCsv(rows)[0] == '\U{FEFF}'
  {
    assert ToCsv(rows)[1..] == Body(rows);
    BodyReadsBack(rows);
  }

  /** The exact table comes back just when it has rows and every row has cells. */
  lemma CsvIsExact(rows: seq<seq<Cell>>)
    ensures var cells :=
      seq(|rows|, i requires 0 <= i < |rows| => seq(|rows[i]|, j requires 0 <= j < |rows[i]| => Guarded(rows[i][j])));
      ReadCsv(ToCsv(rows)) == File(cells) <==> rows != [] && forall i :: 0 <= i < |rows| ==> rows[i] != []
  {
    CsvReadsBack(rows);
    var cells := seq(|rows|,
      i requires 0 <= i < |rows| => seq(|rows[i]|, j requires 0 <= j < |rows[i]| => Guarded(rows[i][j])));
    assert forall i :: 0 <= i < |rows| ==> (Fields(rows[i]) == cells[i] <==> rows[i] != []);
    if rows != [] && forall i :: 0 <= i < |rows| ==> rows[i] != [] { assert Records(rows) == cells; }
    if Records(rows) == cells {
      assert |cells| == |rows| == |Records(rows)|;
      forall i | 0 <= i < |rows| ensures rows[i] != [] { assert Records(rows)[i] == cells[i]; }
    }
  }


  /** A text gets the prefix exactly if a spreadsheet might take it for a formula; numbers never do. */
  lemma GuardedExactly(text: string, n: int)
    ensures Guarded(Number(n)) == NumberText(n)
    ensures if text != "" && text[0] in "=+-@\t\r" then Guarded(Text(text)) == "'" + text
      else Guarded(Text(text)) == text
  {
    assert "=+-@\t\r" == ['=', '+', '-', '@', '\t', '\r'];
  }
}
