/**
 The CSV export's text, and a quote-aware reader of it (section 2 of RFC 4180,
 with LF alone as the record separator and CR as data). Reading what was
 exported gives every field back, with null read as the empty text.
 */
module ExportCsv {
  import opened Options
  import opened Sequences
  import opened ExportReader

  // ---- Writing ------------------------------------------------------------

  function DoubleQuotes(s: string): string {
    if s == [] then []
    else (if s[0] == '"' then ['"', '"'] else [s[0]]) + DoubleQuotes(s[1..])
  }

  predicate NeedsQuotes(s: string) {
    '"' in s || ',' in s || '\n' in s
  }

  function CsvEscape(value: Option<string>): string {
    if value.None? || value.value == "" then ""
    else
      var escaped := DoubleQuotes(value.value);
      if NeedsQuotes(escaped) then ['"'] + escaped + ['"'] else escaped
  }

  function CsvLine(cells: seq<Option<string>>): string {
    Join(Map(CsvEscape, cells), ",")
  }

  const CSV_HEADER_LEFT: seq<string> :=
    ["claim_id", "external_claim_id", "source_email", "customer_name", "product_name", "serial_number", "purchase_date"]

  const CSV_HEADER_RIGHT: seq<string> :=
    ["issue_summary", "retailer", "status", "warranty_status", "missing_info", "created_at", "updated_at"]

  const CSV_HEADER: seq<string> := CSV_HEADER_LEFT + CSV_HEADER_RIGHT

  function ClaimCells(row: Row): (cells: seq<Option<string>>)
    ensures cells != []
  {
    [Some(row.id), row.externalClaimId, row.sourceEmail, row.customerName, row.productName, row.serialNumber,
     row.purchaseDate]
    + [row.issueSummary, row.retailer, Some(row.status), Some(row.warrantyStatus), Some(Join(row.missingInfo, "|")),
       Some(row.createdAtText), Some(row.updatedAtText)]
  }

  function ClaimToCsvRow(row: Row): string {
    CsvLine(ClaimCells(row))
  }

  // ---- Reading ------------------------------------------------------------

  datatype Mode = FieldStart | Plain | Quoted | QuoteSeen

  datatype Reader =
    | Reading(mode: Mode, field: string, record: seq<string>, records: seq<seq<string>>)
    | Malformed

  function EndField(r: Reader): Reader
    requires r.Reading?
  {
    Reading(FieldStart, "", r.record + [r.field], r.records)
  }

  function EndRecord(r: Reader): Reader
    requires r.Reading?
  {
    Reading(FieldStart, "", [], r.records + [r.record + [r.field]])
  }

  function ReadChar(r: Reader, c: char): Reader {
    if r.Malformed? then r
    else if r.mode == Quoted then
      if c == '"' then r.(mode := QuoteSeen) else r.(field := r.field + [c])
    else if c == ',' then EndField(r)
    else if c == '\n' then EndRecord(r)
    else
      match r.mode
      case FieldStart => if c == '"' then r.(mode := Quoted) else r.(mode := Plain, field := [c])
      case Plain => if c == '"' then Malformed else r.(field := r.field + [c])
      case QuoteSeen => if c == '"' then r.(mode := Quoted, field := r.field + [c]) else Malformed
  }

  function ReadText(r: Reader, s: string): Reader
    decreases |s|
  {
    if s == [] then r else ReadText(ReadChar(r, s[0]), s[1..])
  }

  /** The records of a document whose last record is newline-terminated. */
  function ParseCsv(s: string): Option<seq<seq<string>>> {
    var r := ReadText(Reading(FieldStart, "", [], []), s);
    if r.Reading? && r.mode == FieldStart && r.field == "" && r.record == [] then Some(r.records) else None
  }

  function FieldText(value: Option<string>): string {
    if value.None? then "" else value.value
  }

  // ---- Reading what was written -------------------------------------------

  lemma {:induction false} ReadConcat(r: Reader, a: string, b: string)
    ensures ReadText(r, a + b) == ReadText(ReadText(r, a), b)
    decreases |a|
  {
    if a == [] {
      assert a + b == b;
    } else {
      assert (a + b)[1..] == a[1..] + b;
      ReadConcat(ReadChar(r, a[0]), a[1..], b);
    }
  }

  lemma {:induction false} ReadOne(r: Reader, c: char)
    ensures ReadText(r, [c]) == ReadChar(r, c)
  {
    assert [c][1..] == "";
  }

  lemma {:induction false} QuotedText(r: Reader, s: string)
    requires r.Reading? && r.mode == Quoted
    ensures ReadText(r, DoubleQuotes(s)) == r.(field := r.field + s)
    decreases |s|
  {
    if s == [] {
      assert r.field + s == r.field;
    } else {
      var head := if s[0] == '"' then ['"', '"'] else [s[0]];
      ReadConcat(r, head, DoubleQuotes(s[1..]));
      var next := r.(field := r.field + [s[0]]);
      ReadOne(r, s[0]);
      if s[0] == '"' {
        ReadConcat(r, ['"'], ['"']);
        ReadOne(r.(mode := QuoteSeen), '"');
        assert head == ['"'] + ['"'];
      }
      QuotedText(next, s[1..]);
      assert r.field + [s[0]] + s[1..] == r.field + s;
    }
  }

  lemma {:induction false} PlainText(r: Reader, s: string)
    requires r.Reading? && r.mode == Plain && !NeedsQuotes(s)
    ensures ReadText(r, s) == r.(field := r.field + s)
    decreases |s|
  {
    if s == [] {
      assert r.field + s == r.field;
    } else {
      PlainText(r.(field := r.field + [s[0]]), s[1..]);
      assert r.field + [s[0]] + s[1..] == r.field + s;
    }
  }

  lemma {:induction false} DoubleQuotesKeeps(s: string)
    ensures s == "" <==> DoubleQuotes(s) == ""
    ensures !NeedsQuotes(DoubleQuotes(s)) ==> DoubleQuotes(s) == s
  {
    if s != [] {
      DoubleQuotesKeeps(s[1..]);
      var rest := DoubleQuotes(s[1..]);
      assert forall c :: c in rest ==> c in DoubleQuotes(s);
      assert s == [s[0]] + s[1..];
    }
  }

  /** Reading one escaped field from a field start collects exactly the field's text. */
  lemma {:induction false} FieldReadsBack(record: seq<string>, records: seq<seq<string>>, value: Option<string>)
    ensures var r := ReadText(Reading(FieldStart, "", record, records), CsvEscape(value));
            r.Reading? && r.mode != Quoted && r.field == FieldText(value) && r.record == record && r.records == records
  {
    if value.Some? && value.value != "" {
      if NeedsQuotes(DoubleQuotes(value.value)) {
        QuotedReadsBack(record, records, value.value);
      } else {
        PlainReadsBack(record, records, value.value);
      }
    }
  }

  lemma {:induction false} QuotedReadsBack(record: seq<string>, records: seq<seq<string>>, v: string)
    ensures var r := ReadText(Reading(FieldStart, "", record, records), ['"'] + DoubleQuotes(v) + ['"']);
            r.Reading? && r.mode != Quoted && r.field == v && r.record == record && r.records == records
  {
    var start := Reading(FieldStart, "", record, records);
    var escaped := DoubleQuotes(v);
    DoubleQuotesKeeps(v);
    ReadConcat(start, ['"'] + escaped, ['"']);
    ReadConcat(start, ['"'], escaped);
    assert ['"'][1..] == "";
    var open := start.(mode := Quoted);
    assert ReadText(start, ['"']) == open;
    QuotedText(open, v);
    assert "" + v == v;
  }

  lemma {:induction false} PlainReadsBack(record: seq<string>, records: seq<seq<string>>, v: string)
    requires v != "" && !NeedsQuotes(DoubleQuotes(v))
    ensures var r := ReadText(Reading(FieldStart, "", record, records), DoubleQuotes(v));
            r.Reading? && r.mode != Quoted && r.field == v && r.record == record && r.records == records
  {
    DoubleQuotesKeeps(v);
    assert DoubleQuotes(v) == v;
    PlainText(Reading(FieldStart, "", record, records).(mode := Plain, field := [v[0]]), v[1..]);
    assert [v[0]] + v[1..] == v;
  }

  /** A field and the separator after it. */
  lemma {:induction false} FieldThen(record: seq<string>, records: seq<seq<string>>, value: Option<string>, c: char,
                                     rest: string)
    requires c == ',' || c == '\n'
    ensures ReadText(Reading(FieldStart, "", record, records), CsvEscape(value) + ([c] + rest))
            == ReadText(if c == ',' then Reading(FieldStart, "", record + [FieldText(value)], records)
                        else Reading(FieldStart, "", [], records + [record + [FieldText(value)]]), rest)
  {
    var start, text := Reading(FieldStart, "", record, records), CsvEscape(value);
    FieldReadsBack(record, records, value);
    ReadConcat(start, text, [c] + rest);
    ReadConcat(ReadText(start, text), [c], rest);
    ReadOne(ReadText(start, text), c);
  }

  lemma {:induction false} LineSplits(cells: seq<Option<string>>)
    requires 1 < |cells|
    ensures CsvLine(cells) + "\n" == CsvEscape(cells[0]) + ([','] + (CsvLine(cells[1..]) + "\n"))
  {
    var first, others := CsvEscape(cells[0]), Map(CsvEscape, cells[1..]);
    assert ([first] + others)[1..] == others;
    assert Join(Map(CsvEscape, cells), ",") == first + "," + Join(others, ",");
  }

  lemma {:induction false} LineReadsBack(record: seq<string>, records: seq<seq<string>>, cells: seq<Option<string>>)
    requires cells != []
    ensures ReadText(Reading(FieldStart, "", record, records), CsvLine(cells) + "\n")
            == Reading(FieldStart, "", [], records + [record + Map(FieldText, cells)])
    decreases |cells|
  {
    var first, text := CsvEscape(cells[0]), FieldText(cells[0]);
    if |cells| == 1 {
      FieldThen(record, records, cells[0], '\n', "");
      assert CsvLine(cells) + "\n" == first + (['\n'] + "");
      assert Map(FieldText, cells) == [text] + [];
      assert [text] + [] == [text];
    } else {
      var rest := CsvLine(cells[1..]) + "\n";
      FieldThen(record, records, cells[0], ',', rest);
      LineSplits(cells);
      LineReadsBack(record + [text], records, cells[1..]);
      Assoc(record, [text], Map(FieldText, cells[1..]));
    }
  }

  function RecordOf(row: Row): seq<string> {
    Map(FieldText, ClaimCells(row))
  }

  lemma {:induction false} LastLine(records: seq<seq<string>>, row: Row)
    ensures ReadText(Reading(FieldStart, "", [], records), CsvLine(ClaimCells(row)) + "\n")
            == Reading(FieldStart, "", [], records + [RecordOf(row)])
  {
    LineReadsBack([], records, ClaimCells(row));
    assert [] + Map(FieldText, ClaimCells(row)) == RecordOf(row);
  }

  lemma {:induction false} LinesReadBack(records: seq<seq<string>>, rows: seq<Row>)
    ensures ReadText(Reading(FieldStart, "", [], records), Lines(ClaimToCsvRow, rows))
            == Reading(FieldStart, "", [], records + Map(RecordOf, rows))
    decreases |rows|
  {
    if rows == [] {
      assert records + Map(RecordOf, rows) == records;
    } else {
      var n := |rows| - 1;
      LinesReadBack(records, rows[..n]);
      LastLine(records + Map(RecordOf, rows[..n]), rows[n]);
      ReadConcat(Reading(FieldStart, "", [], records), Lines(ClaimToCsvRow, rows[..n]),
                 CsvLine(ClaimCells(rows[n])) + "\n");
      LinesSnoc(rows);
      Assoc(records, Map(RecordOf, rows[..n]), [RecordOf(rows[n])]);
    }
  }

  /** The last row, as text and as a record. */
  lemma {:induction false} LinesSnoc(rows: seq<Row>)
    requires rows != []
    ensures var n := |rows| - 1;
            && Lines(ClaimToCsvRow, rows) == Lines(ClaimToCsvRow, rows[..n]) + (CsvLine(ClaimCells(rows[n])) + "\n")
            && Map(RecordOf, rows) == Map(RecordOf, rows[..n]) + [RecordOf(rows[n])]
  {
    var n := |rows| - 1;
    MapLast(RecordOf, rows);
    Assoc(Lines(ClaimToCsvRow, rows[..n]), CsvLine(ClaimCells(rows[n])), "\n");
  }

  /** Each name of the header stands over its own field. */
  lemma {:induction false} NamesStandOverFields(row: Row)
    ensures |CSV_HEADER| == |RecordOf(row)| == 14
    ensures CSV_HEADER[0] == "claim_id" && RecordOf(row)[0] == row.id
    ensures CSV_HEADER[1] == "external_claim_id" && RecordOf(row)[1] == FieldText(row.externalClaimId)
    ensures CSV_HEADER[2] == "source_email" && RecordOf(row)[2] == FieldText(row.sourceEmail)
    ensures CSV_HEADER[3] == "customer_name" && RecordOf(row)[3] == FieldText(row.customerName)
    ensures CSV_HEADER[4] == "product_name" && RecordOf(row)[4] == FieldText(row.productName)
    ensures CSV_HEADER[5] == "serial_number" && RecordOf(row)[5] == FieldText(row.serialNumber)
    ensures CSV_HEADER[6] == "purchase_date" && RecordOf(row)[6] == FieldText(row.purchaseDate)
    ensures CSV_HEADER[7] == "issue_summary" && RecordOf(row)[7] == FieldText(row.issueSummary)
    ensures CSV_HEADER[8] == "retailer" && RecordOf(row)[8] == FieldText(row.retailer)
    ensures CSV_HEADER[9] == "status" && RecordOf(row)[9] == row.status
    ensures CSV_HEADER[10] == "warranty_status" && RecordOf(row)[10] == row.warrantyStatus
    ensures CSV_HEADER[11] == "missing_info" && RecordOf(row)[11] == Join(row.missingInfo, "|")
    ensures CSV_HEADER[12] == "created_at" && RecordOf(row)[12] == row.createdAtText
    ensures CSV_HEADER[13] == "updated_at" && RecordOf(row)[13] == row.updatedAtText
  {
    FieldsAre(row);
  }

  lemma {:induction false} FieldsAre(row: Row)
    ensures |RecordOf(row)| == |ClaimCells(row)| == 14
    ensures forall i :: 0 <= i < 14 ==> RecordOf(row)[i] == FieldText(ClaimCells(row)[i])
  {
    forall i | 0 <= i < 14
      ensures RecordOf(row)[i] == FieldText(ClaimCells(row)[i])
    {
      MapAt(FieldText, ClaimCells(row), i);
    }
  }

  // ---- The exported document ----------------------------------------------

  /** The header's names, as cells: none of them needs quotes, so the plain join of the names is their line. */
  function HeaderCells(names: seq<string>): seq<Option<string>> {
    Map(Cell, names)
  }

  function Cell(name: string): Option<string> {
    Some(name)
  }

  predicate PlainName(name: string) {
    name != "" && !NeedsQuotes(name)
  }

  lemma {:induction false} DoubleQuotesPlain(s: string)
    requires !NeedsQuotes(s)
    ensures DoubleQuotes(s) == s
  {
    if s != [] {
      DoubleQuotesPlain(s[1..]);
      assert s == [s[0]] + s[1..];
    }
  }

  lemma {:induction false} HeaderLine(names: seq<string>)
    requires forall i :: 0 <= i < |names| ==> PlainName(names[i])
    ensures CsvLine(HeaderCells(names)) == Join(names, ",")
    ensures Map(FieldText, HeaderCells(names)) == names
  {
    var cells := HeaderCells(names);
    forall i | 0 <= i < |names|
      ensures Map(CsvEscape, cells)[i] == names[i] && Map(FieldText, cells)[i] == names[i]
    {
      assert PlainName(names[i]);
      DoubleQuotesPlain(names[i]);
      MapAt(Cell, names, i);
      MapAt(CsvEscape, cells, i);
      MapAt(FieldText, cells, i);
    }
    assert Map(CsvEscape, cells) == names;
  }

  lemma {:induction false} HeaderIsPlain()
    ensures forall i :: 0 <= i < |CSV_HEADER| ==> PlainName(CSV_HEADER[i])
  {
    HeaderLeftIsPlain();
    HeaderRightIsPlain();
  }

  lemma {:induction false} HeaderLeftIsPlain()
    ensures forall i :: 0 <= i < |CSV_HEADER_LEFT| ==> PlainName(CSV_HEADER_LEFT[i])
  {
  }

  lemma {:induction false} HeaderRightIsPlain()
    ensures forall i :: 0 <= i < |CSV_HEADER_RIGHT| ==> PlainName(CSV_HEADER_RIGHT[i])
  {
  }

  lemma {:induction false} HeaderReadsBack(names: seq<string>)
    requires names != [] && forall i :: 0 <= i < |names| ==> PlainName(names[i])
    ensures ReadText(Reading(FieldStart, "", [], []), Join(names, ",") + "\n") == Reading(FieldStart, "", [], [names])
  {
    HeaderLine(names);
    LineReadsBack([], [], HeaderCells(names));
    assert [] + names == names;
    assert [] + [names] == [names];
  }

  /** The round trip of a whole document. */
  lemma {:induction false} DocumentReadsBack(names: seq<string>, rows: seq<Row>)
    requires names != [] && forall i :: 0 <= i < |names| ==> PlainName(names[i])
    ensures ParseCsv(Join(names, ",") + "\n" + Lines(ClaimToCsvRow, rows)) == Some([names] + Map(RecordOf, rows))
  {
    HeaderReadsBack(names);
    ReadConcat(Reading(FieldStart, "", [], []), Join(names, ",") + "\n", Lines(ClaimToCsvRow, rows));
    LinesReadBack([names], rows);
  }

  /** The CSV export of a table: whatever the batch and chunk sizes, its text reads back as the first `limit` rows. */
  method ExportCsvText(rank: string -> real, table: seq<Row>, limit: nat, batchSize: nat, chunkRows: int)
    returns (output: seq<string>, count: nat)
    requires Ordered(rank, table) && 0 < batchSize && 1 <= chunkRows
    ensures count == Min(limit, |table|)
    ensures ParseCsv(Concat(output)) == Some([CSV_HEADER] + Map(RecordOf, Take(table, limit)))
  {
    var reader := new ExportBatchReader(rank, table, limit, batchSize);
    output, count := StreamCsv(reader, Join(CSV_HEADER, ","), ClaimToCsvRow, chunkRows);
    assert table[..reader.Total()] == Take(table, limit);
    HeaderIsPlain();
    DocumentReadsBack(CSV_HEADER, Take(table, limit));
  }
}
