/**
 * The CSV printer of the transaction export and a reader of CSV text, written
 * independently of it from section 2 of RFC 4180 with LF as the record break.
 */
module Csv {
  import opened Prelude

  const HEADERS: seq<string> := [
    "id", "amount", "assetType", "assetCode", "assetIssuer", "senderWalletId", "receiverWalletId",
    "memo", "status", "stellarHash", "stellarLedger", "stellarFee", "statusReason", "idempotencyKey",
    "statusChangedAt", "submittedAt", "confirmedAt", "failedAt", "createdAt", "updatedAt"
  ]

  /** A fetched row: column name to the text of its value; a null column is absent. */
  type Row = map<string, string>

  // ----- The printer -----

  function DoubleQuotes(s: string): string {
    if s == "" then "" else (if s[0] == '"' then "\"\"" else [s[0]]) + DoubleQuotes(s[1..])
  }

  predicate NeedsQuotes(s: string) {
    ',' in s || '"' in s || '\n' in s
  }

  function Escape(v: Option<string>): string {
    match v
    case None => ""
    case Some(s) => if NeedsQuotes(s) then "\"" + DoubleQuotes(s) + "\"" else s
  }

  function Column(row: Row, h: string): Option<string> {
    if h in row then Some(row[h]) else None
  }

  function Columns(headers: seq<string>, row: Row): (cells: seq<Option<string>>)
    ensures |cells| == |headers|
  {
    seq(|headers|, i requires 0 <= i < |headers| => Column(row, headers[i]))
  }

  function EscapeAll(cells: seq<Option<string>>): (texts: seq<string>)
    ensures |texts| == |cells|
  {
    seq(|cells|, i requires 0 <= i < |cells| => Escape(cells[i]))
  }

  function Join(parts: seq<string>, sep: char): string {
    if |parts| == 0 then ""
    else if |parts| == 1 then parts[0]
    else parts[0] + [sep] + Join(parts[1..], sep)
  }

  function Line(headers: seq<string>, row: Row): string {
    Join(EscapeAll(Columns(headers, row)), ',')
  }

  function Lines(headers: seq<string>, rows: seq<Row>): (lines: seq<string>)
    ensures |lines| == 1 + |rows|
  {
    [Join(headers, ',')] + seq(|rows|, i requires 0 <= i < |rows| => Line(headers, rows[i]))
  }

  function CsvText(headers: seq<string>, rows: seq<Row>): string {
    if rows == [] then "" else Join(Lines(headers, rows), '\n')
  }

  method SerializeRows(headers: seq<string>, rows: seq<Row>) returns (csv: string)
    ensures csv == CsvText(headers, rows)
  {
    if |rows| == 0 {
      return "";
    }
    var lines := [Join(headers, ',')];
    for i := 0 to |rows|
      invariant lines == Lines(headers, rows)[..i + 1]
    {
      lines := lines + [Line(headers, rows[i])];
    }
    assert lines == Lines(headers, rows);
    csv := Join(lines, '\n');
  }

  method SerializeCsv(rows: seq<Row>) returns (csv: string)
    ensures csv == CsvText(HEADERS, rows)
    ensures rows != [] ==> Read(csv) == Some([HEADERS] + RowTexts(HEADERS, rows))
  {
    csv := SerializeRows(HEADERS, rows);
    if rows != [] {
      ExportRoundTrip(rows);
    }
  }

  // ----- The reader -----

  datatype Mode = FieldStart | Plain | Quoted | QuoteSeen

  datatype Reader =
    | Reading(mode: Mode, field: string, record: seq<string>, records: seq<seq<string>>)
    | Malformed

  function EndField(r: Reader): Reader
    requires r.Reading?
  {
    Reading(FieldStart, "", r.record + [r.field], r.records)
  }

  function EndRecord(r: Reader): Reader
    requires r.Reading?
  {
    Reading(FieldStart, "", [], r.records + [r.record + [r.field]])
  }

  function Feed(r: Reader, c: char): Reader {
    if r.Malformed? then Malformed
    else if r.mode == Quoted then
      if c == '"' then r.(mode := QuoteSeen) else r.(field := r.field + [c])
    else if c == ',' then EndField(r)
    else if c == '\n' then EndRecord(r)
    else if c == '"' then
      match r.mode
      case FieldStart => r.(mode := Quoted)
      case QuoteSeen => r.(mode := Quoted, field := r.field + [c])
      case _ => Malformed
    else if r.mode == QuoteSeen then Malformed
    else r.(mode := Plain, field := r.field + [c])
  }

  function FeedAll(r: Reader, s: string): Reader
    decreases |s|
  {
    if s == "" then r else FeedAll(Feed(r, s[0]), s[1..])
  }

  /** The last record may or may not have an ending line break. */
  function Finish(r: Reader): Option<seq<seq<string>>> {
    if r.Malformed? || r.mode == Quoted then None
    else if r.mode == FieldStart && r.record == [] then Some(r.records)
    else Some(EndRecord(r).records)
  }

  function Read(s: string): Option<seq<seq<string>>> {
    Finish(FeedAll(Reading(FieldStart, "", [], []), s))
  }

  // ----- What the reader must find -----

  function CellText(v: Option<string>): string {
    match v
    case None => ""
    case Some(s) => s
  }

  function CellTexts(cells: seq<Option<string>>): (texts: seq<string>)
    ensures |texts| == |cells|
  {
    seq(|cells|, i requires 0 <= i < |cells| => CellText(cells[i]))
  }

  function RowTexts(headers: seq<string>, rows: seq<Row>): (texts: seq<seq<string>>)
    ensures |texts| == |rows|
  {
    seq(|rows|, i requires 0 <= i < |rows| => CellTexts(Columns(headers, rows[i])))
  }

  // ----- Reading inverts printing -----

  lemma {:induction false} FeedAllConcat(r: Reader, s: string, t: string)
    ensures FeedAll(r, s + t) == FeedAll(FeedAll(r, s), t)
    decreases |s|
  {
    if s == "" {
      assert s + t == t;
    } else {
      assert (s + t)[1..] == s[1..] + t;
      FeedAllConcat(Feed(r, s[0]), s[1..], t);
    }
  }

  lemma {:induction false} FeedSeparator(r: Reader, s: string, sep: char, t: string)
    ensures FeedAll(r, s + [sep] + t) == FeedAll(Feed(FeedAll(r, s), sep), t)
  {
    FeedAllConcat(r, s + [sep], t);
    FeedAllConcat(r, s, [sep]);
    assert FeedAll(FeedAll(r, s), [sep]) == Feed(FeedAll(r, s), sep);
  }

  lemma {:induction false} PlainText(r: Reader, s: string)
    requires r.Reading? && r.mode == Plain && !NeedsQuotes(s)
    ensures FeedAll(r, s) == r.(field := r.field + s)
    decreases |s|
  {
    if s != "" {
      PlainText(Feed(r, s[0]), s[1..]);
      assert r.field + [s[0]] + s[1..] == r.field + s;
    } else {
      assert r.field + s == r.field;
    }
  }

  lemma {:induction false} QuotedText(r: Reader, s: string)
    requires r.Reading? && r.mode == Quoted
    ensures FeedAll(r, DoubleQuotes(s)) == r.(field := r.field + s)
    decreases |s|
  {
    if s == "" {
      assert r.field + s == r.field;
    } else {
      var head := if s[0] == '"' then "\"\"" else [s[0]];
      FeedAllConcat(r, head, DoubleQuotes(s[1..]));
      var r' := r.(field := r.field + [s[0]]);
      assert FeedAll(r, head) == r' by {
        assert FeedAll(r, head) == FeedAll(Feed(r, head[0]), head[1..]);
        if s[0] == '"' {
          assert FeedAll(Feed(r, head[0]), head[1..]) == Feed(Feed(r, '"'), '"');
        }
      }
      QuotedText(r', s[1..]);
      assert r.field + [s[0]] + s[1..] == r.field + s;
    }
  }

  /** r' has read exactly one whole field, `text`, beyond r. */
  ghost predicate HasField(r': Reader, r: Reader, text: string)
    requires r.Reading?
  {
    && r'.Reading? && r'.mode != Quoted
    && r' == r.(mode := r'.mode, field := text)
    && (r'.mode == FieldStart ==> text == "")
  }

  lemma FieldRead(r: Reader, v: Option<string>)
    requires r.Reading? && r.mode == FieldStart && r.field == ""
    ensures HasField(FeedAll(r, Escape(v)), r, CellText(v))
  {
    match v
    case None =>
    case Some(s) =>
      if NeedsQuotes(s) {
        var quoted := "\"" + DoubleQuotes(s);
        FeedAllConcat(r, quoted, "\"");
        FeedAllConcat(r, "\"", DoubleQuotes(s));
        assert FeedAll(r, "\"") == Feed(r, '"');
        QuotedText(Feed(r, '"'), s);
        assert FeedAll(FeedAll(r, quoted), "\"") == Feed(FeedAll(r, quoted), '"');
      } else if s != "" {
        PlainText(Feed(r, s[0]), s[1..]);
        assert [s[0]] + s[1..] == s;
      }
  }

  /** A cell and the comma after it are read as one field, and the reader is ready for the next. */
  lemma CellRead(r: Reader, v: Option<string>, rest: string)
    requires r.Reading? && r.mode == FieldStart && r.field == ""
    ensures FeedAll(r, Escape(v) + "," + rest) == FeedAll(r.(record := r.record + [CellText(v)]), rest)
  {
    FieldRead(r, v);
    FeedSeparator(r, Escape(v), ',', rest);
  }

  lemma {:induction false} RecordRead(r: Reader, cells: seq<Option<string>>)
    requires r.Reading? && r.mode == FieldStart && r.field == "" && |cells| > 0
    ensures var texts := CellTexts(cells);
      var n := |cells| - 1;
      HasField(FeedAll(r, Join(EscapeAll(cells), ',')), r.(record := r.record + texts[..n]), texts[n])
    decreases |cells|
  {
    var texts := CellTexts(cells);
    if |cells| == 1 {
      FieldRead(r, cells[0]);
      assert r.record + texts[..0] == r.record;
    } else {
      assert EscapeAll(cells)[1..] == EscapeAll(cells[1..]);
      CellRead(r, cells[0], Join(EscapeAll(cells[1..]), ','));
      var r' := r.(record := r.record + [texts[0]]);
      RecordRead(r', cells[1..]);
      assert texts[1..] == CellTexts(cells[1..]);
      assert r'.record + texts[1..][..|cells| - 2] == r.record + texts[..|cells| - 1];
    }
  }

  /** One line is read as one record, whether a line break or the end of the text closes it. */
  lemma LineRead(r: Reader, cells: seq<Option<string>>, line: string, text: seq<string>)
    requires r.Reading? && r == Reading(FieldStart, "", [], r.records) && |cells| > 1
    requires line == Join(EscapeAll(cells), ',') && text == CellTexts(cells)
    ensures Feed(FeedAll(r, line), '\n') == Reading(FieldStart, "", [], r.records + [text])
    ensures Finish(FeedAll(r, line)) == Some(r.records + [text])
  {
    RecordRead(r, cells);
    var n := |text| - 1;
    assert [] + text[..n] == text[..n] && text[..n] + [text[n]] == text;
  }

  /** Feeding whole records, one per line: all but the last are closed by the line breaks. */
  lemma {:induction false} LinesRead(r: Reader, recs: seq<seq<Option<string>>>)
    requires r.Reading? && r == Reading(FieldStart, "", [], r.records)
    requires |recs| > 0 && forall i :: 0 <= i < |recs| ==> |recs[i]| > 1
    ensures Finish(FeedAll(r, Join(seq(|recs|, i requires 0 <= i < |recs| => Join(EscapeAll(recs[i]), ',')), '\n')))
         == Some(r.records + seq(|recs|, i requires 0 <= i < |recs| => CellTexts(recs[i])))
    decreases |recs|
  {
    var lines := seq(|recs|, i requires 0 <= i < |recs| => Join(EscapeAll(recs[i]), ','));
    var texts := seq(|recs|, i requires 0 <= i < |recs| => CellTexts(recs[i]));
    LineRead(r, recs[0], lines[0], texts[0]);
    if |recs| == 1 {
      assert r.records + texts == r.records + [texts[0]];
    } else {
      var rest := recs[1..];
      assert lines[1..] == seq(|rest|, i requires 0 <= i < |rest| => Join(EscapeAll(rest[i]), ','));
      assert texts[1..] == seq(|rest|, i requires 0 <= i < |rest| => CellTexts(rest[i]));
      FeedSeparator(r, lines[0], '\n', Join(lines[1..], '\n'));
      LinesRead(Reading(FieldStart, "", [], r.records + [texts[0]]), rest);
      assert r.records + [texts[0]] + texts[1..] == r.records + texts;
    }
  }

  /** For any plain header names, two or more, and every non-empty list of rows. */
  lemma CsvRoundTrip(headers: seq<string>, rows: seq<Row>)
    requires rows != [] && |headers| > 1 && forall i :: 0 <= i < |headers| ==> !NeedsQuotes(headers[i])
    ensures Read(CsvText(headers, rows)) == Some([headers] + RowTexts(headers, rows))
  {
    var header := seq(|headers|, i requires 0 <= i < |headers| => Some(headers[i]));
    assert EscapeAll(header) == headers && CellTexts(header) == headers;
    var recs := [header] + seq(|rows|, i requires 0 <= i < |rows| => Columns(headers, rows[i]));
    assert Lines(headers, rows) == seq(|recs|, i requires 0 <= i < |recs| => Join(EscapeAll(recs[i]), ','));
    LinesRead(Reading(FieldStart, "", [], []), recs);
    assert [headers] + RowTexts(headers, rows) == [] + seq(|recs|, i requires 0 <= i < |recs| => CellTexts(recs[i]));
  }

  lemma FirstNamesArePlain()
    ensures forall i :: 0 <= i < 10 ==> !NeedsQuotes(HEADERS[i])
  {
  }

  lemma LastNamesArePlain()
    ensures forall i :: 10 <= i < 20 ==> !NeedsQuotes(HEADERS[i])
  {
  }

  lemma HeaderNamesArePlain()
    ensures |HEADERS| == 20 && forall i :: 0 <= i < |HEADERS| ==> !NeedsQuotes(HEADERS[i])
  {
    FirstNamesArePlain();
    LastNamesArePlain();
  }

  /** The reader returns the header record and then each row's fields, null read back as empty text. */
  lemma ExportRoundTrip(rows: seq<Row>)
    requires rows != []
    ensures Read(CsvText(HEADERS, rows)) == Some([HEADERS] + RowTexts(HEADERS, rows))
  {
    HeaderNamesArePlain();
    CsvRoundTrip(HEADERS, rows);
  }

  // ----- What the reader would not notice -----

  /** A field is written as it is exactly if it has no comma, no quote and no line break. */
  lemma QuotedOnlyIfNeeded(s: string)
    ensures Escape(Some(s)) == s <==> ',' !in s && '"' !in s && '\n' !in s
  {
    QuotesLengthen(s);
  }

  lemma {:induction false} QuotesLengthen(s: string)
    ensures |DoubleQuotes(s)| >= |s|
  {
    if s != "" {
      QuotesLengthen(s[1..]);
    }
  }

  lemma {:induction false} JoinEnds(parts: seq<string>, sep: char)
    requires |parts| > 1
    ensures var s, last := Join(parts, sep), parts[|parts| - 1];
      s != "" && s[|s| - 1] == if last == "" then sep else last[|last| - 1]
  {
    if |parts| > 2 {
      JoinEnds(parts[1..], sep);
    }
  }

  /** The text of an export has no line break at its end. */
  lemma NoBreakAtEnd(headers: seq<string>, rows: seq<Row>)
    requires rows != [] && |headers| > 1
    ensures var s := CsvText(headers, rows);
      s != "" && s[|s| - 1] != '\n'
  {
    var lines := Lines(headers, rows);
    var row := rows[|rows| - 1];
    var cells := EscapeAll(Columns(headers, row));
    JoinEnds(cells, ',');
    JoinEnds(lines, '\n');
    assert lines[|lines| - 1] == Line(headers, row);
    assert cells[|cells| - 1] == Escape(Column(row, headers[|headers| - 1]));
  }
}
