/**
 The CSV reader: the character loop that splits a text into rows of cells, and the header-keyed table.
 Writing rows as RFC 4180 section 2 says and splitting the text gives back the rows, exactly when the
 text does not start with a byte order mark.
 */
module Csv {
  import opened Outcome
  import opened Basics
  import opened JsText

  type Row = seq<string>

  const BOM := '\U{FEFF}'

  /** The rows that come of the text not yet read, given the current row, field and quoting. */
  function Rows(text: string, row: Row, field: string, quoted: bool): seq<Row>
    decreases |text|
  {
    if text == "" then
      if field != "" || row != [] then [row + [field]] else []
    else
      var ch := text[0];
      if quoted then
        if ch != '"' then Rows(text[1..], row, field + [ch], true)
        else if 1 < |text| && text[1] == '"' then Rows(text[2..], row, field + "\"", true)
        else Rows(text[1..], row, field, false)
      else match ch
        case '"' => Rows(text[1..], row, field, true)
        case ',' => Rows(text[1..], row + [field], "", false)
        case '\r' => Rows(text[1..], row, field, false)
        case '\n' => [row + [field]] + Rows(text[1..], [], "", false)
        case _ => Rows(text[1..], row, field + [ch], false)
  }

  function SplitRows(text: string): seq<Row> {
    Rows(if text != "" && text[0] == BOM then text[1..] else text, [], "", false)
  }

  method ComputeSplitRows(text: string) returns (rows: seq<Row>)
    ensures rows == SplitRows(text)
  {
    rows := [];
    var row: Row := [];
    var field := "";
    var quoted := false;
    var i := 0;
    if text != "" && text[0] == BOM {
      i := 1;
    }
    assert text[0..] == text;
    while i < |text|
      invariant i <= |text|
      invariant SplitRows(text) == rows + Rows(text[i..], row, field, quoted)
    {
      var ch := text[i];
      ghost var s := text[i..];
      assert s[1..] == text[i + 1..];
      if quoted {
        if ch == '"' {
          if i + 1 < |text| && text[i + 1] == '"' {
            assert s[2..] == text[i + 2..];
            field := field + "\"";
            i := i + 1;
          } else {
            quoted := false;
          }
        } else {
          field := field + [ch];
        }
      } else if ch == '"' {
        quoted := true;
      } else if ch == ',' {
        row, field := row + [field], "";
      } else if ch == '\n' {
        assert rows + ([row + [field]] + Rows(text[i + 1..], [], "", false))
            == rows + [row + [field]] + Rows(text[i + 1..], [], "", false);
        rows, row, field := rows + [row + [field]], [], "";
      } else if ch != '\r' {
        field := field + [ch];
      }
      i := i + 1;
    }
    if field != "" || row != [] {
      rows := rows + [row + [field]];
    }
  }

  // ----- writing

  /** A cell and whether it is written in quotes; a record and whether it ends in CRLF or only LF. */
  datatype Cell = Cell(content: string, quoted: bool)

  datatype Record = Record(cells: seq<Cell>, crlf: bool)

  predicate NeedsQuotes(s: string) {
    exists i | 0 <= i < |s| :: s[i] == ',' || s[i] == '"' || s[i] == '\r' || s[i] == '\n'
  }

  predicate ValidRecord(r: Record) {
    r.cells != [] && forall i | 0 <= i < |r.cells| :: NeedsQuotes(r.cells[i].content) ==> r.cells[i].quoted
  }

  function Doubled(s: string): string {
    if s == "" then "" else (if s[0] == '"' then "\"\"" else [s[0]]) + Doubled(s[1..])
  }

  function Break(crlf: bool): string {
    if crlf then "\r\n" else "\n"
  }

  /** The text of each form, followed by `rest`. */
  function CellText(c: Cell, rest: string): string {
    if c.quoted then "\"" + (Doubled(c.content) + ("\"" + rest)) else c.content + rest
  }

  function CellsText(cells: seq<Cell>, rest: string): string
    requires cells != []
  {
    CellText(cells[0], if |cells| == 1 then rest else "," + CellsText(cells[1..], rest))
  }

  function RecordsText(records: seq<Record>, rest: string): string
    requires forall i | 0 <= i < |records| :: ValidRecord(records[i])
  {
    if records == [] then rest
    else
      assert ValidRecord(records[0]);
      CellsText(records[0].cells, Break(records[0].crlf) + RecordsText(records[1..], rest))
  }

  function Contents(cells: seq<Cell>): (row: Row)
    ensures |row| == |cells|
  {
    if cells == [] then [] else [cells[0].content] + Contents(cells[1..])
  }

  function AllContents(records: seq<Record>): seq<Row> {
    if records == [] then [] else [Contents(records[0].cells)] + AllContents(records[1..])
  }

  // ----- reading back

  predicate EndsCell(rest: string) {
    rest == "" || rest[0] != '"'
  }

  lemma {:induction false} ReadPlain(s: string, rest: string, row: Row, field: string)
    requires !NeedsQuotes(s)
    ensures Rows(s + rest, row, field, false) == Rows(rest, row, field + s, false)
  {
    if s == "" {
      assert s + rest == rest && field + s == field;
    } else {
      assert (s + rest)[1..] == s[1..] + rest;
      assert forall i | 0 <= i < |s[1..]| :: s[1..][i] == s[i + 1];
      ReadPlain(s[1..], rest, row, field + [s[0]]);
      assert field + [s[0]] + s[1..] == field + s;
    }
  }

  lemma {:induction false} ReadDoubled(c: char, tail: string, row: Row, field: string)
    ensures Rows((if c == '"' then "\"\"" else [c]) + tail, row, field, true) == Rows(tail, row, field + [c], true)
  {
    var text := (if c == '"' then "\"\"" else [c]) + tail;
    assert text[if c == '"' then 2 else 1..] == tail;
  }

  lemma {:induction false} ReadQuoted(s: string, rest: string, row: Row, field: string)
    requires EndsCell(rest)
    ensures Rows(Doubled(s) + ("\"" + rest), row, field, true) == Rows(rest, row, field + s, false)
  {
    var text := Doubled(s) + ("\"" + rest);
    if s == "" {
      assert text == "\"" + rest && text[1..] == rest && field + s == field;
    } else {
      hide Rows;
      var tail := Doubled(s[1..]) + ("\"" + rest);
      assert text == (if s[0] == '"' then "\"\"" else [s[0]]) + tail;
      ReadDoubled(s[0], tail, row, field);
      ReadQuoted(s[1..], rest, row, field + [s[0]]);
      assert field + [s[0]] + s[1..] == field + s;
    }
  }

  lemma {:induction false} ReadCell(c: Cell, rest: string, row: Row)
    requires NeedsQuotes(c.content) ==> c.quoted
    requires EndsCell(rest)
    ensures Rows(CellText(c, rest), row, "", false) == Rows(rest, row, c.content, false)
  {
    assert "" + c.content == c.content;
    if c.quoted {
      assert CellText(c, rest)[1..] == Doubled(c.content) + ("\"" + rest);
      ReadQuoted(c.content, rest, row, "");
    } else {
      ReadPlain(c.content, rest, row, "");
    }
  }

  lemma {:induction false} ReadComma(rest: string, row: Row, field: string)
    ensures Rows("," + rest, row, field, false) == Rows(rest, row + [field], "", false)
  {
    assert ("," + rest)[1..] == rest;
  }

  /** The cells of a row, read up to the last one, which is still the current field. */
  lemma {:induction false} ReadCells(cells: seq<Cell>, rest: string, row: Row)
    requires cells != [] && EndsCell(rest)
    requires forall i | 0 <= i < |cells| :: NeedsQuotes(cells[i].content) ==> cells[i].quoted
    ensures var n := |cells| - 1;
      Rows(CellsText(cells, rest), row, "", false) == Rows(rest, row + Contents(cells)[..n], Contents(cells)[n], false)
  {
    hide Rows, CellText, NeedsQuotes;
    var c, n := cells[0], |cells| - 1;
    if |cells| == 1 {
      ReadCell(c, rest, row);
      assert row + Contents(cells)[..0] == row;
    } else {
      var tail := CellsText(cells[1..], rest);
      ReadCell(c, "," + tail, row);
      ReadComma(tail, row, c.content);
      ReadCells(cells[1..], rest, row + [c.content]);
      assert row + [c.content] + Contents(cells[1..])[..n - 1] == row + Contents(cells)[..n];
    }
  }

  lemma {:induction false} ReadBreak(crlf: bool, rest: string, row: Row, field: string)
    ensures Rows(Break(crlf) + rest, row, field, false) == [row + [field]] + Rows(rest, [], "", false)
    ensures EndsCell(Break(crlf) + rest)
  {
    var text := Break(crlf) + rest;
    if crlf {
      assert text[1..] == "\n" + rest && ("\n" + rest)[1..] == rest;
    } else {
      assert text[1..] == rest;
    }
  }

  lemma {:induction false} ReadRow(cells: seq<Cell>, crlf: bool, rest: string)
    requires ValidRecord(Record(cells, crlf))
    ensures Rows(CellsText(cells, Break(crlf) + rest), [], "", false) == [Contents(cells)] + Rows(rest, [], "", false)
  {
    hide Rows, CellsText, Break, EndsCell;
    var n := |cells| - 1;
    var row, field := Contents(cells)[..n], Contents(cells)[n];
    ReadBreak(crlf, rest, row, field);
    ReadCells(cells, Break(crlf) + rest, []);
    assert [] + row == row && row + [field] == Contents(cells);
  }

  lemma {:induction false} ReadRecords(records: seq<Record>, rest: string)
    requires forall i | 0 <= i < |records| :: ValidRecord(records[i])
    ensures Rows(RecordsText(records, rest), [], "", false) == AllContents(records) + Rows(rest, [], "", false)
  {
    if records != [] {
      var tail := RecordsText(records[1..], rest);
      ReadRow(records[0].cells, records[0].crlf, tail);
      ReadRecords(records[1..], rest);
      assert [Contents(records[0].cells)] + (AllContents(records[1..]) + Rows(rest, [], "", false))
          == AllContents(records) + Rows(rest, [], "", false);
    } else {
      assert AllContents(records) + Rows(rest, [], "", false) == Rows(rest, [], "", false);
    }
  }

  /** What follows the first cell of the first record. */
  function AfterFirstCell(records: seq<Record>): string
    requires records != [] && forall i | 0 <= i < |records| :: ValidRecord(records[i])
  {
    assert ValidRecord(records[0]);
    var rest := Break(records[0].crlf) + RecordsText(records[1..], "");
    if |records[0].cells| == 1 then rest else "," + CellsText(records[0].cells[1..], rest)
  }

  lemma {:induction false} TextOfFirst(records: seq<Record>)
    requires records != [] && forall i | 0 <= i < |records| :: ValidRecord(records[i])
    ensures ValidRecord(records[0])
    ensures RecordsText(records, "") == CellText(records[0].cells[0], AfterFirstCell(records))
    ensures AfterFirstCell(records) != "" && AfterFirstCell(records)[0] != BOM
    ensures AllContents(records) != [] && AllContents(records)[0] != []
    ensures AllContents(records)[0][0] == records[0].cells[0].content
  {
    assert ValidRecord(records[0]);
  }

  /** The records without the first character of their first cell. */
  function WithoutFirst(records: seq<Record>): seq<Record>
    requires records != [] && records[0].cells != [] && records[0].cells[0].content != ""
  {
    var Record(cells, crlf) := records[0];
    [Record([Cell(cells[0].content[1..], false)] + cells[1..], crlf)] + records[1..]
  }

  lemma {:induction false} WithoutFirstIsValid(records: seq<Record>)
    requires records != [] && forall i | 0 <= i < |records| :: ValidRecord(records[i])
    requires records[0].cells != [] && records[0].cells[0].content != "" && !records[0].cells[0].quoted
    ensures forall i | 0 <= i < |WithoutFirst(records)| :: ValidRecord(WithoutFirst(records)[i])
  {
    assert ValidRecord(records[0]);
    var c, c' := records[0].cells[0], WithoutFirst(records)[0].cells[0];
    assert forall i | 0 <= i < |c'.content| :: c'.content[i] == c.content[i + 1];
    assert !NeedsQuotes(c'.content);
  }

  lemma {:induction false} WithoutFirstText(records: seq<Record>)
    requires records != [] && forall i | 0 <= i < |records| :: ValidRecord(records[i])
    requires records[0].cells != [] && records[0].cells[0].content != "" && !records[0].cells[0].quoted
    requires forall i | 0 <= i < |WithoutFirst(records)| :: ValidRecord(WithoutFirst(records)[i])
    ensures RecordsText(records, "")[1..] == RecordsText(WithoutFirst(records), "")
  {
    var shorter := WithoutFirst(records);
    TextOfFirst(records);
    TextOfFirst(shorter);
    assert shorter[0].cells[1..] == records[0].cells[1..] && shorter[1..] == records[1..];
    assert AfterFirstCell(shorter) == AfterFirstCell(records);
    hide *;
    PlainTail(records[0].cells[0].content, AfterFirstCell(records));
  }

  lemma {:induction false} PlainTail(s: string, rest: string)
    requires s != ""
    ensures CellText(Cell(s, false), rest)[1..] == CellText(Cell(s[1..], false), rest)
  {
    assert (s + rest)[1..] == s[1..] + rest;
  }

  /** Only a plain first cell can put a byte order mark first, and then splitting loses it. */
  lemma {:induction false} FirstCellLosesMark(records: seq<Record>)
    requires forall i | 0 <= i < |records| :: ValidRecord(records[i])
    requires var text := RecordsText(records, ""); text != "" && text[0] == BOM
    ensures SplitRows(RecordsText(records, "")) != AllContents(records)
  {
    assert records != [];
    hide RecordsText, AllContents, Rows, CellsText;
    TextOfFirst(records);
    WithoutFirstIsValid(records);
    WithoutFirstText(records);
    TextOfFirst(WithoutFirst(records));
    ReadRecords(WithoutFirst(records), "");
    RowsOfNothing();
  }

  lemma {:induction false} RowsOfNothing()
    ensures Rows("", [], "", false) == []
  {
  }

  /** Splitting undoes writing, for all records in every quoting, exactly when no byte order mark leads. */
  lemma {:induction false} SplitOfWritten(records: seq<Record>)
    requires forall i | 0 <= i < |records| :: ValidRecord(records[i])
    ensures var text := RecordsText(records, "");
      SplitRows(text) == AllContents(records) <==> (text == "" || text[0] != '\U{FEFF}')
  {
    var text := RecordsText(records, "");
    if text != "" && text[0] == BOM {
      FirstCellLosesMark(records);
    } else {
      ReadRecords(records, "");
      assert AllContents(records) + [] == AllContents(records);
    }
  }

  /** A leading mark is dropped, whatever follows. */
  lemma {:induction false} MarkIsDropped(records: seq<Record>)
    requires forall i | 0 <= i < |records| :: ValidRecord(records[i])
    ensures SplitRows(['\U{FEFF}'] + RecordsText(records, "")) == AllContents(records)
  {
    ReadRecords(records, "");
    assert AllContents(records) + [] == AllContents(records);
    assert ([BOM] + RecordsText(records, ""))[1..] == RecordsText(records, "");
  }

  /** The last record may lack its line break, unless it is a single empty cell: then it is lost. */
  lemma {:induction false} LastBreakIsOptional(records: seq<Record>, last: Record)
    requires ValidRecord(last) && forall i | 0 <= i < |records| :: ValidRecord(records[i])
    ensures var text := RecordsText(records, CellsText(last.cells, ""));
      var rows := AllContents(records) + (if Contents(last.cells) == [""] then [] else [Contents(last.cells)]);
      SplitRows(['\U{FEFF}'] + text) == rows && (text == "" || text[0] != '\U{FEFF}' ==> SplitRows(text) == rows)
  {
    var tail := CellsText(last.cells, "");
    assert ([BOM] + RecordsText(records, tail))[1..] == RecordsText(records, tail);
    ReadRecords(records, tail);
    LastCells(last.cells);
  }

  lemma {:induction false} LastCells(cells: seq<Cell>)
    requires ValidRecord(Record(cells, true))
    ensures Rows(CellsText(cells, ""), [], "", false) == if Contents(cells) == [""] then [] else [Contents(cells)]
  {
    ReadCells(cells, "", []);
    var n := |cells| - 1;
    var row, field := Contents(cells)[..n], Contents(cells)[n];
    assert [] + row == row && row + [field] == Contents(cells);
  }

  // ----- the table

  datatype CsvError = NoHeader | DuplicateColumn

  datatype Table = Table(headers: Row, records: seq<map<string, string>>)

  predicate IsBlankRow(row: Row) {
    |row| == 1 && IsBlank(row[0])
  }

  function NonBlank(rows: seq<Row>): seq<Row> {
    if rows == [] then []
    else (if IsBlankRow(rows[0]) then [] else [rows[0]]) + NonBlank(rows[1..])
  }

  function Trimmed(row: Row): (r: Row)
    ensures |r| == |row|
  {
    seq(|row|, i requires 0 <= i < |row| => Trim(row[i]))
  }

  /** The one name under which an object takes no text: assigning it sets the prototype, and a text is ignored there. */
  const PROTO: string := "__proto__"

  /** Assigning a text to a property of a plain object. */
  function Assign(record: map<string, string>, name: string, text: string): map<string, string> {
    if name == PROTO then record else record[name := text]
  }

  /** A record: each header with the cell in its position, or nothing if the row is too short. */
  function Keyed(headers: Row, cells: Row): map<string, string> {
    if headers == [] then map[]
    else
      var n := |headers| - 1;
      Assign(Keyed(headers[..n], cells), headers[n], if n < |cells| then cells[n] else "")
  }

  function AllKeyed(headers: Row, rows: seq<Row>): seq<map<string, string>> {
    seq(|rows|, i requires 0 <= i < |rows| => Keyed(headers, rows[i]))
  }

  function TableOf(raw: seq<Row>): Result<Table, CsvError> {
    if raw == [] || forall i | 0 <= i < |raw[0]| :: IsBlank(raw[0][i]) then Err(NoHeader)
    else if !Distinct(Trimmed(raw[0])) then Err(DuplicateColumn)
    else Ok(Table(Trimmed(raw[0]), AllKeyed(Trimmed(raw[0]), raw[1..])))
  }

  function ParseCsv(text: string): Result<Table, CsvError> {
    TableOf(NonBlank(SplitRows(text)))
  }

  method ComputeKeyed(headers: Row, cells: Row) returns (record: map<string, string>)
    ensures record == Keyed(headers, cells)
  {
    record := map[];
    assert headers[..|headers|] == headers;
    for i := 0 to |headers|
      invariant record == Keyed(headers[..i], cells)
    {
      assert headers[..i + 1][..i] == headers[..i];
      record := Assign(record, headers[i], if i < |cells| then cells[i] else "");
    }
  }

  method ComputeParseCsv(text: string) returns (r: Result<Table, CsvError>)
    ensures r == ParseCsv(text)
  {
    var rows := ComputeSplitRows(text);
    var raw := NonBlank(rows);
    if raw == [] || forall i | 0 <= i < |raw[0]| :: IsBlank(raw[0][i]) {
      return Err(NoHeader);
    }
    var headers := Trimmed(raw[0]);
    if !Distinct(headers) {
      return Err(DuplicateColumn);
    }
    var records: seq<map<string, string>> := [];
    for k := 1 to |raw|
      invariant |records| == k - 1
      invariant forall i | 0 <= i < |records| :: records[i] == Keyed(headers, raw[i + 1])
    {
      var record := ComputeKeyed(headers, raw[k]);
      records := records + [record];
    }
    assert records == AllKeyed(headers, raw[1..]);
    return Ok(Table(headers, records));
  }

  /** A record has exactly the headers other than `__proto__` as keys. */
  lemma {:induction false} KeysAre(headers: Row, cells: Row, k: string)
    ensures k in Keyed(headers, cells) <==> k in headers && k != "__proto__"
  {
    if headers != [] {
      var n := |headers| - 1;
      KeysAre(headers[..n], cells, k);
      assert headers == headers[..n] + [headers[n]];
    }
  }

  /** A header holds its cell exactly when it is not `__proto__`; there are no other keys. */
  lemma {:induction false} KeyedAt(headers: Row, cells: Row, i: nat)
    requires Distinct(headers) && i < |headers|
    ensures headers[i] in Keyed(headers, cells) <==> headers[i] != "__proto__"
    ensures headers[i] != "__proto__" ==> Keyed(headers, cells)[headers[i]] == if i < |cells| then cells[i] else ""
  {
    KeysAre(headers, cells, headers[i]);
    var n := |headers| - 1;
    if i < n {
      assert headers[..n][i] == headers[i] && headers[n] != headers[i];
      KeyedAt(headers[..n], cells, i);
    }
  }

  /** The column of that name is lost: a record of the two columns `__proto__` and `a` has only the second. */
  lemma {:induction false} ProtoIsLost(first: string, second: string)
    ensures Keyed(["__proto__", "a"], [first, second]) == map["a" := second]
  {
    assert [PROTO, "a"][..1] == [PROTO] && [PROTO][..0] == [];
    assert Keyed([PROTO], [first, second]) == map[];
  }

  /** A text that the records were written to, with a byte order mark in front or none. */
  predicate Writes(text: string, records: seq<Record>)
    requires forall i | 0 <= i < |records| :: ValidRecord(records[i])
  {
    || text == [BOM] + RecordsText(records, "")
    || (text == RecordsText(records, "") && (text == "" || text[0] != BOM))
  }

  lemma {:induction false} SplitOfEither(text: string, records: seq<Record>)
    requires forall i | 0 <= i < |records| :: ValidRecord(records[i])
    requires Writes(text, records)
    ensures SplitRows(text) == AllContents(records)
  {
    hide RecordsText, SplitRows;
    SplitOfWritten(records);
    MarkIsDropped(records);
  }

  /** A row is passed over exactly when it is one blank cell; the others stay in order. */
  lemma {:induction false} BlankRowsAre(before: seq<Row>, row: Row, after: seq<Row>)
    ensures NonBlank(before + [row] + after) == NonBlank(before) + NonBlank([row]) + NonBlank(after)
    ensures NonBlank([row]) == if |row| == 1 && forall i | 0 <= i < |row[0]| :: row[0][i] in WHITE then [] else [row]
  {
    NonBlankConcat(before + [row], after);
    NonBlankConcat(before, [row]);
    if |row| == 1 {
      BlankIsWhite(row[0]);
    }
  }

  lemma {:induction false} NonBlankConcat(a: seq<Row>, b: seq<Row>)
    ensures NonBlank(a + b) == NonBlank(a) + NonBlank(b)
  {
    if a == [] {
      assert a + b == b;
    } else {
      assert (a + b)[0] == a[0] && (a + b)[1..] == a[1..] + b;
      NonBlankConcat(a[1..], b);
    }
  }

  /** Reading a written table gives the headers, and for each row that is not blank its cell under each header but `__proto__`. */
  lemma {:induction false} TableOfWritten(text: string, written: seq<Record>, t: Table, i: nat, j: nat)
    requires forall i | 0 <= i < |written| :: ValidRecord(written[i])
    requires Writes(text, written) && ParseCsv(text) == Ok(t)
    ensures var rows := NonBlank(AllContents(written));
      && rows != [] && |t.headers| == |rows[0]| && |t.records| == |rows| - 1
      && (j < |t.headers| ==> t.headers[j] == Trim(rows[0][j]))
      && (i < |t.records| && j < |t.headers| ==>
            && (t.headers[j] in t.records[i] <==> t.headers[j] != "__proto__")
            && (t.headers[j] != "__proto__" ==>
                  t.records[i][t.headers[j]] == if j < |rows[i + 1]| then rows[i + 1][j] else ""))
  {
    hide SplitRows, NonBlank, Writes, Trim, Keyed;
    SplitOfEither(text, written);
    var rows := NonBlank(AllContents(written));
    assert rows != [];
    if i < |t.records| && j < |t.headers| {
      assert t.records[i] == Keyed(t.headers, rows[1..][i]);
      KeyedAt(t.headers, rows[i + 1], j);
    }
  }

  /** Parsing a written table succeeds exactly when a row is left as header, with a name, and none twice. */
  lemma {:induction false} WrittenTableParses(text: string, written: seq<Record>)
    requires forall i | 0 <= i < |written| :: ValidRecord(written[i])
    requires Writes(text, written)
    ensures var rows := NonBlank(AllContents(written));
      ParseCsv(text).Ok? <==>
        && rows != []
        && (forall i, j | 0 <= i < j < |rows[0]| :: Trim(rows[0][i]) != Trim(rows[0][j]))
        && exists i :: 0 <= i < |rows[0]| && !IsBlank(rows[0][i])
  {
    hide SplitRows, NonBlank, Writes, Trim;
    SplitOfEither(text, written);
    var rows := NonBlank(AllContents(written));
    if rows != [] {
      assert forall i | 0 <= i < |rows[0]| :: Trimmed(rows[0])[i] == Trim(rows[0][i]);
    }
  }
}
