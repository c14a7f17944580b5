/**
 The file of import errors that the asset workspace offers for download, against a reader of
 comma-separated values written from section 2 of RFC 4180.
 */
module CsvErrors {
  import opened Basics
  import opened Decimal

  const QUOTE: char := '"'
  const CRLF := "\r\n"

  // ---------------------------------------------------------------------------------------------
  // The writer
  // ---------------------------------------------------------------------------------------------

  datatype Issue = Issue(rowNumber: int, assetId: string, errors: seq<string>)

  predicate StartsFormula(value: string) {
    value != "" && value[0] in {'=', '+', '-', '@'}
  }

  /** An apostrophe in front keeps a spreadsheet from reading the cell as a formula. */
  function Guard(value: string): string {
    if StartsFormula(value) then "'" + value else value
  }

  function DoubleQuotes(value: string): string {
    if value == "" then ""
    else (if value[0] == QUOTE then [QUOTE, QUOTE] else [value[0]]) + DoubleQuotes(value[1..])
  }

  function Safe(value: string): string {
    [QUOTE] + DoubleQuotes(Guard(value)) + [QUOTE]
  }

  function Join(parts: seq<string>, separator: string): string {
    if parts == [] then "" else if |parts| == 1 then parts[0] else parts[0] + separator + Join(parts[1..], separator)
  }

  function NumberText(n: int): string {
    if n < 0 then "-" + Digits(-n) else Digits(n)
  }

  /** The cells of one row as the user should read them. */
  function Cells(issue: Issue): seq<string> {
    [NumberText(issue.rowNumber), issue.assetId, Join(issue.errors, "; ")]
  }

  function SafeAll(cells: seq<string>): (safe: seq<string>)
    ensures |safe| == |cells| && forall i | 0 <= i < |cells| :: safe[i] == Safe(cells[i])
  {
    seq(|cells|, i requires 0 <= i < |cells| => Safe(cells[i]))
  }

  function Row(issue: Issue): string {
    Join(SafeAll(Cells(issue)), ",")
  }

  const HEADER := "row_number,asset_id,errors"

  function Rows(issues: seq<Issue>): (rows: seq<string>)
    ensures |rows| == |issues| && forall i | 0 <= i < |issues| :: rows[i] == Row(issues[i])
  {
    seq(|issues|, i requires 0 <= i < |issues| => Row(issues[i]))
  }

  function Document(issues: seq<Issue>): string {
    Join([HEADER] + Rows(issues), CRLF) + CRLF
  }

  /** Joining two lists is joining each, with the separator between. */
  lemma {:induction false} JoinTogether(front: seq<string>, back: seq<string>, separator: string)
    requires front != [] && back != []
    ensures Join(front + back, separator) == Join(front, separator) + separator + Join(back, separator)
  {
    if |front| == 1 {
      assert (front + back)[1..] == back;
    } else {
      assert (front + back)[1..] == front[1..] + back;
      JoinTogether(front[1..], back, separator);
    }
  }

  /** The absolute value in digits that read back, after a sign if the number is negative. */
  ghost predicate IsNumeral(n: int, text: string) {
    exists digits :: digits != "" && (forall c | c in digits :: '0' <= c <= '9')
                     && text == (if n < 0 then "-" else "") + digits && Value(digits) == if n < 0 then -n else n
  }

  /** Three cells: the number of the row, its asset as it is, and its errors one after the other. */
  lemma CellsExactly(issue: Issue, front: seq<string>, back: seq<string>)
    requires front != [] && back != [] ==> issue.errors == front + back
    ensures var cells := Cells(issue);
            && |cells| == 3 && IsNumeral(issue.rowNumber, cells[0]) && cells[1] == issue.assetId
            && (|issue.errors| <= 1 ==> cells[2] == if issue.errors == [] then "" else issue.errors[0])
            && (front != [] && back != [] ==>
                  cells[2] == Cells(issue.(errors := front))[2] + "; " + Cells(issue.(errors := back))[2])
  {
    var n := issue.rowNumber;
    var digits := Digits(if n < 0 then -n else n);
    DigitsReadBack(if n < 0 then -n else n);
    assert NumberText(n) == (if n < 0 then "-" else "") + digits;
    if front != [] && back != [] {
      JoinTogether(front, back, "; ");
    }
  }

  /** The text offered for download; there is none without errors. */
  method DownloadImportErrors(issues: seq<Issue>) returns (text: Option<string>)
    ensures text == if issues == [] then None else Some(Document(issues))
  {
    if issues == [] {
      return None;
    }
    var rows := [HEADER];
    for i := 0 to |issues|
      invariant rows == [HEADER] + Rows(issues[..i])
    {
      rows := rows + [Join(SafeAll(Cells(issues[i])), ",")];
      assert Rows(issues[..i + 1]) == Rows(issues[..i]) + [Row(issues[i])];
    }
    assert issues[..|issues|] == issues;
    text := Some(Join(rows, CRLF) + CRLF);
  }

  // ---------------------------------------------------------------------------------------------
  // A reader by section 2 of RFC 4180
  // ---------------------------------------------------------------------------------------------

  /** TEXTDATA of the grammar. */
  predicate IsTextData(c: char) {
    ' ' <= c <= '!' || '#' <= c <= '+' || '-' <= c <= '~'
  }

  datatype Parsed<T> = Parsed(value: T, rest: string)

  /** A field in quotes, after its first quote: two quotes stand for one. Any character is allowed. */
  function ReadQuoted(text: string): (r: Option<Parsed<string>>)
    ensures r.Some? ==> |r.value.rest| < |text|
    decreases |text|
  {
    if text == "" then None
    else if text[0] != QUOTE then
      var r := ReadQuoted(text[1..]);
      if r.None? then None else Some(Parsed([text[0]] + r.value.value, r.value.rest))
    else if |text| > 1 && text[1] == QUOTE then
      var r := ReadQuoted(text[2..]);
      if r.None? then None else Some(Parsed([QUOTE] + r.value.value, r.value.rest))
    else Some(Parsed("", text[1..]))
  }

  function ReadPlain(text: string): (r: Parsed<string>)
    ensures |r.rest| <= |text|
    decreases |text|
  {
    if text == "" || !IsTextData(text[0]) then Parsed("", text)
    else var r := ReadPlain(text[1..]); Parsed([text[0]] + r.value, r.rest)
  }

  function ReadField(text: string): (r: Option<Parsed<string>>)
    ensures r.Some? ==> |r.value.rest| <= |text|
  {
    if text != "" && text[0] == QUOTE then ReadQuoted(text[1..]) else Some(ReadPlain(text))
  }

  function ReadRecord(text: string): (r: Option<Parsed<seq<string>>>)
    ensures r.Some? ==> |r.value.rest| <= |text|
    decreases |text|
  {
    var field := ReadField(text);
    if field.None? then None
    else if field.value.rest == "" || field.value.rest[0] != ',' then Some(Parsed([field.value.value], field.value.rest))
    else
      var others := ReadRecord(field.value.rest[1..]);
      if others.None? then None else Some(Parsed([field.value.value] + others.value.value, others.value.rest))
  }

  /** Records are separated by line breaks; the last record may have one too. */
  function ReadFile(text: string): Option<seq<seq<string>>>
    decreases |text|
  {
    var record := ReadRecord(text);
    if record.None? then None
    else if record.value.rest == "" || record.value.rest == CRLF then Some([record.value.value])
    else if CRLF <= record.value.rest then
      var others := ReadFile(record.value.rest[2..]);
      if others.None? then None else Some([record.value.value] + others.value)
    else None
  }

  // ---------------------------------------------------------------------------------------------
  // Reading back what was written
  // ---------------------------------------------------------------------------------------------

  /** What may stand after a record: nothing, or the start of a line break. */
  predicate AfterRecord(rest: string) {
    rest == "" || rest[0] == '\r'
  }

  /** One character of a field in quotes, doubled if it is a quote. */
  lemma ReadsOneQuoted(c: char, more: string)
    ensures ReadQuoted((if c == QUOTE then [QUOTE, QUOTE] else [c]) + more)
            == var r := ReadQuoted(more); if r.None? then None else Some(Parsed([c] + r.value.value, r.value.rest))
  {
    var text := (if c == QUOTE then [QUOTE, QUOTE] else [c]) + more;
    assert text[0] == c && text[if c == QUOTE then 2 else 1..] == more;
  }

  lemma {:induction false} QuotedReadsBack(value: string, rest: string)
    requires rest == "" || rest[0] != QUOTE
    ensures ReadQuoted(DoubleQuotes(value) + ([QUOTE] + rest)) == Some(Parsed(value, rest))
  {
    var tail := [QUOTE] + rest;
    if value == "" {
      assert DoubleQuotes(value) + tail == tail && tail[1..] == rest;
    } else {
      QuotedReadsBack(value[1..], rest);
      ReadsOneQuoted(value[0], DoubleQuotes(value[1..]) + tail);
      Regrouped(if value[0] == QUOTE then [QUOTE, QUOTE] else [value[0]], DoubleQuotes(value[1..]), tail);
      assert value == [value[0]] + value[1..];
    }
  }

  lemma SafeReadsBack(value: string, rest: string)
    requires rest == "" || rest[0] != QUOTE
    ensures ReadField(Safe(value) + rest) == Some(Parsed(Guard(value), rest))
  {
    var text := Safe(value) + rest;
    QuotedReadsBack(Guard(value), rest);
    assert text[0] == QUOTE && text[1..] == DoubleQuotes(Guard(value)) + ([QUOTE] + rest);
  }

  /** A field at the end of a record. */
  lemma ReadsLastField(text: string, value: string, rest: string)
    requires ReadField(text) == Some(Parsed(value, rest)) && AfterRecord(rest)
    ensures ReadRecord(text) == Some(Parsed([value], rest))
  {
  }

  /** A field with a comma and other fields behind it. */
  lemma ReadsOneField(text: string, value: string, others: string, values: seq<string>, rest: string)
    requires ReadField(text) == Some(Parsed(value, "," + others)) && ReadRecord(others) == Some(Parsed(values, rest))
    ensures ReadRecord(text) == Some(Parsed([value] + values, rest))
  {
    assert ("," + others)[1..] == others;
  }

  function GuardAll(cells: seq<string>): (guarded: seq<string>)
    ensures |guarded| == |cells| && forall i | 0 <= i < |cells| :: guarded[i] == Guard(cells[i])
  {
    seq(|cells|, i requires 0 <= i < |cells| => Guard(cells[i]))
  }

  /** Texts with a comma between any two of them, followed by the rest. */
  function Separated(parts: seq<string>, rest: string): string
    requires parts != []
  {
    parts[0] + (if |parts| == 1 then rest else "," + Separated(parts[1..], rest))
  }

  lemma {:induction false} JoinSeparates(parts: seq<string>, rest: string)
    requires parts != []
    ensures Join(parts, ",") + rest == Separated(parts, rest)
  {
    if |parts| > 1 {
      JoinSeparates(parts[1..], rest);
      assert Join(parts, ",") + rest == parts[0] + ("," + (Join(parts[1..], ",") + rest));
    }
  }

  /** What stands behind the first field. */
  function Behind(parts: seq<string>, rest: string): string
    requires parts != []
  {
    if |parts| == 1 then rest else "," + Separated(parts[1..], rest)
  }

  /** The reader gets each value from its field, with all that stands behind it. */
  ghost predicate FieldsRead(parts: seq<string>, values: seq<string>, rest: string)
    requires |parts| == |values| > 0
  {
    && ReadField(parts[0] + Behind(parts, rest)) == Some(Parsed(values[0], Behind(parts, rest)))
    && (|parts| > 1 ==> FieldsRead(parts[1..], values[1..], rest))
  }

  lemma {:induction false} RecordReadsBack(parts: seq<string>, values: seq<string>, rest: string)
    requires |parts| == |values| > 0 && AfterRecord(rest) && FieldsRead(parts, values, rest)
    ensures ReadRecord(Separated(parts, rest)) == Some(Parsed(values, rest))
  {
    if |parts| == 1 {
      ReadsLastField(parts[0] + rest, values[0], rest);
      assert values == [values[0]];
    } else {
      RecordReadsBack(parts[1..], values[1..], rest);
      ReadsOneField(parts[0] + Behind(parts, rest), values[0], Separated(parts[1..], rest), values[1..], rest);
      assert values == [values[0]] + values[1..];
    }
  }

  lemma {:induction false} SafeFieldsRead(cells: seq<string>, rest: string)
    requires cells != [] && AfterRecord(rest)
    ensures FieldsRead(SafeAll(cells), GuardAll(cells), rest)
  {
    SafeReadsBack(cells[0], Behind(SafeAll(cells), rest));
    if |cells| > 1 {
      assert SafeAll(cells)[1..] == SafeAll(cells[1..]) && GuardAll(cells)[1..] == GuardAll(cells[1..]);
      SafeFieldsRead(cells[1..], rest);
    }
  }

  lemma SafeRecordReadsBack(cells: seq<string>, rest: string)
    requires cells != [] && AfterRecord(rest)
    ensures ReadRecord(Separated(SafeAll(cells), rest)) == Some(Parsed(GuardAll(cells), rest))
  {
    SafeFieldsRead(cells, rest);
    RecordReadsBack(SafeAll(cells), GuardAll(cells), rest);
  }

  predicate IsPlain(value: string) {
    value != "" && forall c | c in value :: IsTextData(c)
  }

  lemma {:induction false} PlainReadsBack(value: string, rest: string)
    requires (forall c | c in value :: IsTextData(c)) && (rest == "" || !IsTextData(rest[0]))
    ensures ReadPlain(value + rest) == Parsed(value, rest)
  {
    if value == "" {
      assert value + rest == rest;
    } else {
      assert value[0] in value && (value + rest)[0] == value[0];
      assert (value + rest)[1..] == value[1..] + rest;
      PlainReadsBack(value[1..], rest);
      assert value == [value[0]] + value[1..];
    }
  }

  lemma PlainFieldReadsBack(value: string, rest: string)
    requires IsPlain(value) && (rest == "" || !IsTextData(rest[0]))
    ensures ReadField(value + rest) == Some(Parsed(value, rest))
  {
    assert value[0] in value && (value + rest)[0] == value[0];
    PlainReadsBack(value, rest);
  }

  lemma {:induction false} PlainFieldsRead(cells: seq<string>, rest: string)
    requires cells != [] && AfterRecord(rest) && forall cell | cell in cells :: IsPlain(cell)
    ensures FieldsRead(cells, cells, rest)
  {
    assert cells[0] in cells;
    PlainFieldReadsBack(cells[0], Behind(cells, rest));
    if |cells| > 1 {
      PlainFieldsRead(cells[1..], rest);
    }
  }

  lemma PlainRecordReadsBack(cells: seq<string>, rest: string)
    requires cells != [] && AfterRecord(rest) && forall cell | cell in cells :: IsPlain(cell)
    ensures ReadRecord(Separated(cells, rest)) == Some(Parsed(cells, rest))
  {
    PlainFieldsRead(cells, rest);
    RecordReadsBack(cells, cells, rest);
  }

  /** The reader gets this record from this row, whatever line break follows it. */
  ghost predicate Reads(row: string, record: seq<string>) {
    forall rest | AfterRecord(rest) :: ReadRecord(row + rest) == Some(Parsed(record, rest))
  }

  lemma RowReadsBack(issue: Issue)
    ensures Reads(Row(issue), GuardAll(Cells(issue)))
  {
    forall rest | AfterRecord(rest)
      ensures ReadRecord(Row(issue) + rest) == Some(Parsed(GuardAll(Cells(issue)), rest))
    {
      JoinSeparates(SafeAll(Cells(issue)), rest);
      SafeRecordReadsBack(Cells(issue), rest);
    }
  }

  const COLUMNS := ["row_number", "asset_id", "errors"]

  lemma HeaderReadsBack()
    ensures Reads(HEADER, COLUMNS)
  {
    assert COLUMNS[1..][1..] == ["errors"];
    assert HEADER == "row_number" + "," + ("asset_id" + "," + "errors");
    forall rest | AfterRecord(rest) ensures ReadRecord(HEADER + rest) == Some(Parsed(COLUMNS, rest)) {
      JoinSeparates(COLUMNS, rest);
      PlainRecordReadsBack(COLUMNS, rest);
    }
  }

  /** The rows, each with its line break. */
  function Lines(rows: seq<string>): string {
    if rows == [] then "" else rows[0] + (CRLF + Lines(rows[1..]))
  }

  lemma {:induction false} JoinedRowsAreLines(rows: seq<string>)
    requires rows != []
    ensures Join(rows, CRLF) + CRLF == Lines(rows)
  {
    if |rows| == 1 {
      assert Lines(rows[1..]) == "";
    } else {
      JoinedRowsAreLines(rows[1..]);
      assert Join(rows, CRLF) + CRLF == rows[0] + (CRLF + (Join(rows[1..], CRLF) + CRLF));
    }
  }

  lemma {:induction false} LinesReadBack(rows: seq<string>, records: seq<seq<string>>)
    requires |rows| == |records| > 0 && forall i | 0 <= i < |rows| :: Reads(rows[i], records[i])
    ensures ReadFile(Lines(rows)) == Some(records)
  {
    var rest := CRLF + Lines(rows[1..]);
    assert Reads(rows[0], records[0]);
    assert ReadRecord(rows[0] + rest) == Some(Parsed(records[0], rest));
    assert records == [records[0]] + records[1..];
    if |rows| == 1 {
      assert rest == CRLF && records == [records[0]];
    } else {
      assert |Lines(rows[1..])| > 0 && |rest| > 2 && rest[2..] == Lines(rows[1..]);
      LinesReadBack(rows[1..], records[1..]);
    }
  }

  /** The records that a reader should get for the errors. */
  function Table(issues: seq<Issue>): (records: seq<seq<string>>)
    ensures |records| == |issues|
    ensures forall i | 0 <= i < |issues| :: records[i] == GuardAll(Cells(issues[i]))
  {
    seq(|issues|, i requires 0 <= i < |issues| => GuardAll(Cells(issues[i])))
  }

  /** A reader of the downloaded file gets the header, and for every error exactly its guarded cells. */
  lemma DownloadReadsBack(issues: seq<Issue>)
    requires issues != []
    ensures ReadFile(Document(issues)) == Some([COLUMNS] + Table(issues))
  {
    var rows, records := [HEADER] + Rows(issues), [COLUMNS] + Table(issues);
    HeaderReadsBack();
    forall i | 0 <= i < |rows| ensures Reads(rows[i], records[i]) {
      if i > 0 {
        RowReadsBack(issues[i - 1]);
      }
    }
    JoinedRowsAreLines(rows);
    LinesReadBack(rows, records);
  }

  // ---------------------------------------------------------------------------------------------
  // The guard
  // ---------------------------------------------------------------------------------------------

  lemma GuardedCellsAreNoFormulas(cells: seq<string>)
    ensures forall cell | cell in GuardAll(cells) :: !StartsFormula(cell)
  {
    forall cell | cell in GuardAll(cells) ensures !StartsFormula(cell) {
      var i :| 0 <= i < |cells| && GuardAll(cells)[i] == cell;
      assert cell == Guard(cells[i]);
    }
  }

  /** No cell that a reader gets starts a formula. */
  lemma NoCellIsAFormula(issues: seq<Issue>)
    requires issues != []
    ensures ReadFile(Document(issues)).Some?
    ensures forall record, cell | record in ReadFile(Document(issues)).value && cell in record :: !StartsFormula(cell)
  {
    DownloadReadsBack(issues);
    var records := [COLUMNS] + Table(issues);
    forall record, cell | record in records && cell in record ensures !StartsFormula(cell) {
      if record in Table(issues) {
        var i :| 0 <= i < |issues| && record == Table(issues)[i];
        GuardedCellsAreNoFormulas(Cells(issues[i]));
      } else {
        assert record == COLUMNS;
      }
    }
  }

  /** The guard confuses two values exactly when one is a formula and the other that formula after an apostrophe. */
  lemma GuardConfusesExactly(a: string, b: string)
    ensures Guard(a) == Guard(b) <==> a == b || (StartsFormula(a) && b == "'" + a) || (StartsFormula(b) && a == "'" + b)
  {
    assert ("'" + a)[1..] == a && ("'" + b)[1..] == b;
  }
}
